/** What the serving worker must keep true, stated on values: the state of the worker between the
    steps of a turn, and the solo run each job is entitled to. */
module Serving {
  import opened Arithmetic
  import opened Wrappers
  import opened Pools
  import opened Decoders
  import opened Batching
  import opened Errors
  import opened Events

  /** A submitted task; only its tokenization matters here. */
  type Task = nat

  datatype KvAdmission = Reserve | Elastic

  /** The server's fixed settings and its tokenizer and sampler. */
  datatype Server = Server(
    maxSlots: nat,
    chunk: nat,
    prefillBudget: nat,
    admission: KvAdmission,
    maxGenTokens: nat,
    stops: seq<Token>,
    tokenize: Task -> Option<seq<Token>>,
    bytes: Token -> seq<Byte>,
    sample: Logits -> Token)

  datatype QueuedJob = QueuedJob(ticket: Ticket, task: Task, maxTokens: Option<nat>)

  datatype JobMeta = JobMeta(id: nat, ticket: Ticket, hitStop: bool, cancelled: bool)

  type JobSeq = ActiveSeq<JobMeta>

  /** A sequence evicted mid-flight, waiting to resume. */
  datatype ResumedJob = ResumedJob(tokens: seq<Token>, maxGen: nat, generated: nat, extra: JobMeta)

  /** What a job asked for, recorded at admission under its id. */
  datatype Job = Job(ticket: Ticket, prompt: seq<Token>, maxGen: nat)

  datatype Env = Env(server: Server, model: Model, blockSize: nat, totalBlocks: nat, ctx: nat)

  datatype State = State(
    active: seq<JobSeq>,
    resume: seq<ResumedJob>,
    queue: seq<QueuedJob>,
    lanes: seq<seq<Token>>,
    events: seq<EmissionEvent>,
    answers: seq<(Ticket, InferenceError)>,
    jobs: seq<Job>,
    submitted: seq<Ticket>,
    fired: set<Ticket>)

  // ---- The solo run ----

  function NextToken(env: Env, tokens: seq<Token>): Token {
    Next(env.model, env.server.sample, tokens)
  }

  /** What a job streams when it runs alone: greedy tokens up to the cap or the first stop token,
      which is not streamed. An empty prompt produces nothing. */
  function Solo(env: Env, tokens: seq<Token>, budget: nat): seq<Token>
    decreases budget
  {
    if budget == 0 || tokens == [] then []
    else
      var t := NextToken(env, tokens);
      if t in env.server.stops then [] else [t] + Solo(env, tokens + [t], budget - 1)
  }

  /** Why the solo run ends: its cap, or a stop token (or nothing to run). */
  function SoloReason(env: Env, tokens: seq<Token>, budget: nat): FinishReason
    decreases budget
  {
    if budget == 0 then Length
    else if tokens == [] then Stop
    else
      var t := NextToken(env, tokens);
      if t in env.server.stops then Stop else SoloReason(env, tokens + [t], budget - 1)
  }

  /** How many tokens the solo run samples: those it streams, and the stop token that ended it, if one did. */
  function SoloLength(env: Env, tokens: seq<Token>, budget: nat): nat
    decreases budget
  {
    if budget == 0 || tokens == [] then 0
    else
      var t := NextToken(env, tokens);
      if t in env.server.stops then 1 else 1 + SoloLength(env, tokens + [t], budget - 1)
  }

  /** The solo run in plain words: every streamed token is the greedy one after the prompt and what was
      streamed before it, and no stop token; the run is as long as its cap allows, unless the prompt was
      empty or the next greedy token is a stop token; and its reason and length say which it was. */
  lemma {:induction false} SoloIsGreedy(env: Env, prompt: seq<Token>, cap: nat)
    ensures var solo := Solo(env, prompt, cap);
      && |solo| <= cap
      && (forall k :: 0 <= k < |solo| ==> solo[k] == NextToken(env, prompt + solo[..k]) && solo[k] !in env.server.stops)
      && (|solo| == cap ==> SoloReason(env, prompt, cap) == Length && SoloLength(env, prompt, cap) == cap)
      && (|solo| < cap ==> SoloReason(env, prompt, cap) == Stop)
      && (|solo| < cap && prompt == [] ==> solo == [] && SoloLength(env, prompt, cap) == 0)
      && (|solo| < cap && prompt != [] ==>
            NextToken(env, prompt + solo) in env.server.stops && SoloLength(env, prompt, cap) == |solo| + 1)
    decreases cap
  {
    assert prompt + [] == prompt;
    if cap > 0 && prompt != [] {
      var t := NextToken(env, prompt);
      if t !in env.server.stops {
        SoloIsGreedy(env, prompt + [t], cap - 1);
        SoloStep(env, prompt, t, Solo(env, prompt + [t], cap - 1));
      }
    }
  }

  lemma SoloStep(env: Env, prompt: seq<Token>, t: Token, rest: seq<Token>)
    requires t == NextToken(env, prompt) && t !in env.server.stops
    requires forall k :: 0 <= k < |rest| ==> rest[k] == NextToken(env, prompt + [t] + rest[..k]) && rest[k] !in env.server.stops
    ensures forall k :: 0 <= k < |[t] + rest| ==>
      ([t] + rest)[k] == NextToken(env, prompt + ([t] + rest)[..k]) && ([t] + rest)[k] !in env.server.stops
    ensures prompt + ([t] + rest) == prompt + [t] + rest
  {
    hide NextToken;
    var solo := [t] + rest;
    forall k | 0 <= k < |solo|
      ensures solo[k] == NextToken(env, prompt + solo[..k]) && solo[k] !in env.server.stops
    {
      TakeAfterHead(prompt, t, rest, k);
    }
    TakeAfterHead(prompt, t, rest, |solo|);
  }

  lemma TakeAfterHead(prompt: seq<Token>, t: Token, rest: seq<Token>, k: nat)
    requires k <= |[t] + rest|
    ensures k == 0 ==> prompt + ([t] + rest)[..k] == prompt
    ensures k > 0 ==> prompt + ([t] + rest)[..k] == prompt + [t] + rest[..k - 1]
    ensures prompt + ([t] + rest) == prompt + [t] + rest
  {
  }

  /** Bytes of a run of tokens, each detokenized on its own. */
  function Detok(env: Env, tokens: seq<Token>): seq<Byte> {
    if tokens == [] then [] else Detok(env, tokens[..|tokens| - 1]) + env.server.bytes(tokens[|tokens| - 1])
  }

  lemma DetokAppend(env: Env, tokens: seq<Token>, t: Token)
    ensures Detok(env, tokens + [t]) == Detok(env, tokens) + env.server.bytes(t)
  {
    assert (tokens + [t])[..|tokens|] == tokens;
  }

  /** The bytes a job's caller gets are those of the beginning of its solo run; unless the job was
      cancelled or failed they are the whole run, and the reason and the token count given are the run's
      own. A cancelled job is told how many tokens it was sent. */
  ghost predicate Faithful(env: Env, job: Job, sent: seq<Byte>, reply: Reply) {
    && BeginningOfSolo(env, job, sent)
    && (reply.Ok? && reply.reason != Aborted ==>
          && sent == Detok(env, Solo(env, job.prompt, job.maxGen)) && reply.reason == SoloReason(env, job.prompt, job.maxGen)
          && reply.generated == SoloLength(env, job.prompt, job.maxGen))
    && (reply.Ok? && reply.reason == Aborted ==>
          && reply.generated <= |Solo(env, job.prompt, job.maxGen)|
          && sent == Detok(env, Solo(env, job.prompt, job.maxGen)[..reply.generated]))
  }

  ghost predicate BeginningOfSolo(env: Env, job: Job, sent: seq<Byte>) {
    var solo := Solo(env, job.prompt, job.maxGen);
    exists k :: 0 <= k <= |solo| && sent == Detok(env, solo[..k])
  }

  // ---- One job in flight ----

  function GeneratedTokens(job: Job, tokens: seq<Token>): seq<Token>
    requires |job.prompt| <= |tokens|
  {
    tokens[|job.prompt|..]
  }

  /** The token buffer is the prompt followed by the beginning of the solo run, and what remains of
      the solo run is the solo run from here. */
  ghost predicate OnCourse(env: Env, job: Job, tokens: seq<Token>, generated: nat) {
    && |tokens| == |job.prompt| + generated && generated <= job.maxGen
    && job.prompt <= tokens
    && Solo(env, job.prompt, job.maxGen) == GeneratedTokens(job, tokens) + Solo(env, tokens, job.maxGen - generated)
    && SoloReason(env, job.prompt, job.maxGen) == SoloReason(env, tokens, job.maxGen - generated)
    && SoloLength(env, job.prompt, job.maxGen) == generated + SoloLength(env, tokens, job.maxGen - generated)
  }

  /** Blocks the job can ever need. */
  function WorstBlocks(env: Env, job: Job): nat
    requires env.blockSize >= 1
  {
    CeilDiv(Min(|job.prompt| + job.maxGen, env.ctx), env.blockSize)
  }

  /** A job in flight, wherever it waits: on course, everything it generated streamed, its id its
      own, and small enough for the pool. */
  ghost predicate InFlight(env: Env, jobs: seq<Job>, events: seq<EmissionEvent>, tokens: seq<Token>, generated: nat, maxGen: nat, extra: JobMeta)
    requires env.blockSize >= 1
  {
    && extra.id < |jobs| && !extra.hitStop
    && var job := jobs[extra.id];
    && extra.ticket == job.ticket && maxGen == job.maxGen
    && OnCourse(env, job, tokens, generated)
    && Track(events, extra.id) == Live(job.ticket, Detok(env, GeneratedTokens(job, tokens)))
    && WorstBlocks(env, job) <= env.totalBlocks
  }

  ghost predicate SeqOk(env: Env, jobs: seq<Job>, events: seq<EmissionEvent>, s: JobSeq)
    requires env.blockSize >= 1
  {
    && InFlight(env, jobs, events, s.tokens, s.generated, s.maxGen, s.extra)
    && s.finished == s.extra.cancelled
    && (s.tokens != [] ==> s.processed < |s.tokens|)
    && s.slot < env.server.maxSlots
    && (env.server.admission == Reserve && s.extra.id < |jobs| ==> WorstBlocks(env, jobs[s.extra.id]) <= s.kvReservation)
  }

  ghost predicate ParkedOk(env: Env, jobs: seq<Job>, events: seq<EmissionEvent>, j: ResumedJob)
    requires env.blockSize >= 1
  {
    InFlight(env, jobs, events, j.tokens, j.generated, j.maxGen, j.extra) && !j.extra.cancelled
  }

  // ---- The whole worker ----

  function Ids(active: seq<JobSeq>): (r: seq<nat>)
    ensures |r| == |active|
  {
    seq(|active|, i requires 0 <= i < |active| => active[i].extra.id)
  }

  function ParkedIds(resume: seq<ResumedJob>): (r: seq<nat>)
    ensures |r| == |resume|
  {
    seq(|resume|, i requires 0 <= i < |resume| => resume[i].extra.id)
  }

  /** How often a job id is in flight. */
  ghost function Flights(st: State, id: nat): nat {
    multiset(Ids(st.active))[id] + multiset(ParkedIds(st.resume))[id]
  }

  function QueueTickets(queue: seq<QueuedJob>): (r: seq<Ticket>)
    ensures |r| == |queue|
  {
    seq(|queue|, i requires 0 <= i < |queue| => queue[i].ticket)
  }

  function AnswerTickets(answers: seq<(Ticket, InferenceError)>): (r: seq<Ticket>)
    ensures |r| == |answers|
  {
    seq(|answers|, i requires 0 <= i < |answers| => answers[i].0)
  }

  function JobTickets(jobs: seq<Job>): (r: seq<Ticket>)
    ensures |r| == |jobs|
  {
    seq(|jobs|, i requires 0 <= i < |jobs| => jobs[i].ticket)
  }

  /** Every submitted job is in exactly one place: queued, answered from the queue, or admitted. */
  ghost predicate Accounted(st: State) {
    multiset(st.submitted) == multiset(QueueTickets(st.queue)) + multiset(AnswerTickets(st.answers)) + multiset(JobTickets(st.jobs))
  }

  /** The job was answered exactly once, and faithfully: `Track` ignores whatever follows. */
  ghost predicate Answered(env: Env, jobs: seq<Job>, events: seq<EmissionEvent>, id: nat)
    requires id < |jobs|
  {
    var d := Track(events, id);
    d.Done? && d.ticket == jobs[id].ticket && Faithful(env, jobs[id], d.sent, d.reply)
  }

  /** The worker's lanes and reservations: what makes the planner's errors unreachable. */
  ghost predicate Housed(env: Env, active: seq<JobSeq>, lanes: seq<seq<Token>>) {
    && env.blockSize >= 1 && env.server.maxSlots <= |lanes|
    && InLockstep(active, lanes)
    && Reservations(active) <= env.totalBlocks
    && (forall i :: 0 <= i < |active| ==> CeilDiv(active[i].processed, env.blockSize) <= active[i].kvReservation)
    && (forall l :: 0 <= l < |lanes| && l !in Slots(active) ==> lanes[l] == [])
  }

  ghost predicate AllOk(env: Env, jobs: seq<Job>, events: seq<EmissionEvent>, active: seq<JobSeq>, resume: seq<ResumedJob>)
    requires env.blockSize >= 1
  {
    && (forall i :: 0 <= i < |active| ==> SeqOk(env, jobs, events, active[i]))
    && (forall i :: 0 <= i < |resume| ==> ParkedOk(env, jobs, events, resume[i]))
  }

  /** Every admitted job is in flight once or answered; ids not given out are unknown. */
  ghost predicate Resolved(env: Env, st: State) {
    && (forall id: nat :: Flights(st, id) <= 1)
    && (forall id: nat :: id < |st.jobs| && Flights(st, id) == 0 ==> Answered(env, st.jobs, st.events, id))
    && (forall id: nat :: id >= |st.jobs| ==> Track(st.events, id) == Unknown)
  }

  /** The invariant between the steps of a turn. */
  ghost predicate Running(env: Env, st: State) {
    && Housed(env, st.active, st.lanes)
    && AllOk(env, st.jobs, st.events, st.active, st.resume)
    && Resolved(env, st)
    && Accounted(st)
  }

  /** Between turns nothing finished is still active. */
  ghost predicate Quiet(active: seq<JobSeq>) {
    forall i :: 0 <= i < |active| ==> !active[i].finished
  }

  /** The invariant between turns. */
  ghost predicate Inv(env: Env, st: State) {
    Running(env, st) && Quiet(st.active)
  }

  // ---- The solo run, step by step ----

  /** One more greedy token keeps a job on course, unless it is a stop token. */
  lemma CourseContinues(env: Env, job: Job, tokens: seq<Token>, generated: nat)
    requires OnCourse(env, job, tokens, generated) && tokens != [] && generated < job.maxGen
    ensures var t := NextToken(env, tokens);
      if t in env.server.stops then
        && Solo(env, job.prompt, job.maxGen) == GeneratedTokens(job, tokens)
        && SoloReason(env, job.prompt, job.maxGen) == Stop
        && SoloLength(env, job.prompt, job.maxGen) == generated + 1
      else
        && OnCourse(env, job, tokens + [t], generated + 1)
        && GeneratedTokens(job, tokens + [t]) == GeneratedTokens(job, tokens) + [t]
  {
    var t := NextToken(env, tokens);
    if t !in env.server.stops {
      assert GeneratedTokens(job, tokens + [t]) == GeneratedTokens(job, tokens) + [t];
      assert GeneratedTokens(job, tokens) + ([t] + Solo(env, tokens + [t], job.maxGen - generated - 1))
          == (GeneratedTokens(job, tokens) + [t]) + Solo(env, tokens + [t], job.maxGen - generated - 1);
    }
  }

  /** A job on course at its cap has generated its whole solo run. */
  lemma CourseEnds(env: Env, job: Job, tokens: seq<Token>, generated: nat)
    requires OnCourse(env, job, tokens, generated) && generated == job.maxGen
    ensures Solo(env, job.prompt, job.maxGen) == GeneratedTokens(job, tokens)
    ensures SoloReason(env, job.prompt, job.maxGen) == Length && SoloLength(env, job.prompt, job.maxGen) == generated
  {
    assert GeneratedTokens(job, tokens) + [] == GeneratedTokens(job, tokens);
  }

  /** Everything streamed so far is a beginning of the solo run, whatever the reply. */
  lemma PrefixIsFaithful(env: Env, job: Job, tokens: seq<Token>, generated: nat, reply: Reply)
    requires OnCourse(env, job, tokens, generated)
    requires reply.Err? || (reply.reason == Aborted && reply.generated == generated)
    ensures Faithful(env, job, Detok(env, GeneratedTokens(job, tokens)), reply)
  {
    var solo := Solo(env, job.prompt, job.maxGen);
    assert solo[..generated] == GeneratedTokens(job, tokens);
  }

  /** A job that has generated its solo run is faithful under the run's own reason. */
  lemma WholeIsFaithful(env: Env, job: Job, generated: seq<Token>, reply: Reply)
    requires generated == Solo(env, job.prompt, job.maxGen)
    requires reply.Ok? && reply.reason == SoloReason(env, job.prompt, job.maxGen) != Aborted
    requires reply.generated == SoloLength(env, job.prompt, job.maxGen)
    ensures Faithful(env, job, Detok(env, generated), reply)
  {
    assert generated[..|generated|] == generated;
  }

  lemma JobStarts(env: Env, job: Job)
    ensures OnCourse(env, job, job.prompt, 0) && GeneratedTokens(job, job.prompt) == []
  {
  }
}
