/** Two corners the worker does reach, by script from a fresh worker: the oldest sequence paused with
    nobody left to evict, and a turn that leaves everything as it was. */
module Corners {
  import opened Arithmetic
  import opened Wrappers
  import opened Stores
  import opened Decoders
  import opened Batching
  import opened Events
  import opened Serving
  import opened Growth
  import opened Turns
  import opened Admission
  import opened Progress
  import opened Workers

  // ---- A small elastic server ----

  /** Two slots over four blocks of one token; every prompt is one token, nothing stops early. */
  function SmallServer(bytes: Token -> seq<Byte>, sample: Logits -> Token): Server {
    Server(2, 0, 0, Elastic, 3, [], task => Some([7]), bytes, sample)
  }

  ghost predicate Small(env: Env) {
    && env.blockSize == 1 && env.totalBlocks == 4 && env.ctx == 8
    && env.server == SmallServer(env.server.bytes, env.server.sample)
  }

  const GRANTED := Signals(true, {}, true, {}, {})

  lemma {:induction false} OneTokenBlocks(n: nat)
    ensures CeilDiv(n, 1) == n
  {
    if n > 0 {
      OneTokenBlocks(n - 1);
    }
  }

  /** A running sequence that owes one token and holds two blocks. */
  ghost predicate Stands(s: JobSeq, ticket: Ticket, len: nat, generated: nat, maxGen: nat) {
    && |s.tokens| == len >= 1 && s.processed == len - 1 && s.generated == generated && s.maxGen == maxGen
    && !s.finished && !s.paused && s.kvReservation == 2
    && s.extra.ticket == ticket && !s.extra.cancelled
  }

  lemma HoldsTwo(s: JobSeq, ticket: Ticket, len: nat, generated: nat, maxGen: nat)
    requires Stands(s, ticket, len, generated, maxGen)
    ensures s.kvReservation == 2
  {
  }

  // ---- Admission, evaluated ----

  /** An empty worker takes the first two of three jobs, each on two blocks. */
  lemma TwoEnter(env: Env, st: State, a: QueuedJob, b: QueuedJob, c: QueuedJob)
    requires Small(env) && st.active == [] && st.resume == [] && st.queue == [a, b, c]
    requires a.maxTokens == Some(1) && b.maxTokens == None
    ensures var after := AfterAdmission(env, st, GRANTED);
      && |after.active| == 2 && after.resume == [] && after.queue == [c]
      && Stands(after.active[0], a.ticket, 1, 0, 1) && Stands(after.active[1], b.ticket, 1, 0, 3)
  {
    OneTokenBlocks(2);
    OneTokenBlocks(4);
    var first := OneEnters(env, st, a, 1);
    assert [a, b, c][1..] == [b, c];
    var second := OneEnters(env, first, b, 3);
    assert [b, c][1..] == [c];
  }

  /** The front job enters on two blocks whenever there is a slot and two blocks are free. */
  lemma OneEnters(env: Env, st: State, front: QueuedJob, maxGen: nat) returns (next: State)
    requires Small(env) && |st.active| < 2 && st.queue != [] && st.queue[0] == front
    requires maxGen == GenerationCap(env.server, front) && (st.active == [] ==> maxGen == 1) && 1 <= maxGen <= 3
    requires Reservations(st.active) <= 2
    ensures AdmitQueue(env, st, {}, {}) == AdmitQueue(env, next, {}, {})
    ensures next.resume == st.resume && next.queue == st.queue[1..]
    ensures |next.active| == |st.active| + 1 && next.active[..|st.active|] == st.active
    ensures Stands(next.active[|st.active|], front.ticket, 1, 0, maxGen)
    ensures Reservations(next.active) == Reservations(st.active) + 2
  {
    OneTokenBlocks(2);
    OneTokenBlocks(1 + maxGen);
    var job := Job(front.ticket, [7], maxGen);
    assert Judge(env, st.active, front, {}, {}) == Verdict.Enter(job, 2);
    var s := Newcomer(env, st, job, 2);
    next := AdmitFront(st, job, s);
    assert next.active[..|st.active|] == st.active;
  }

  /** A newcomer joins the one sequence running. */
  lemma OneJoins(env: Env, st: State, c: QueuedJob)
    requires Small(env) && |st.active| == 1 && st.active[0].kvReservation == 2 && st.resume == [] && st.queue == [c]
    requires c.maxTokens == None
    ensures var after := AfterAdmission(env, st, GRANTED);
      && |after.active| == 2 && after.resume == [] && after.queue == []
      && after.active[0] == st.active[0] && Stands(after.active[1], c.ticket, 1, 0, 3)
  {
    assert st.active[..0] == [] && Reservations(st.active) == 2;
    var next := OneEnters(env, st, c, 3);
    assert next.active[..1] == st.active;
  }

  // ---- Rounds, evaluated ----

  lemma PairReservations(seqs: seq<JobSeq>)
    requires |seqs| == 2
    ensures Reservations(seqs) == seqs[0].kvReservation + seqs[1].kvReservation
    ensures HeldByFinished(seqs) == HeldIfFinished(seqs[0]) + HeldIfFinished(seqs[1])
  {
    var one := seqs[..1];
    assert one[..0] == [] && Reservations(one) == seqs[0].kvReservation && HeldByFinished(one) == HeldIfFinished(seqs[0]);
  }

  lemma SweepsNobody(active: seq<JobSeq>)
    ensures SweepAll(active, {}) == active
  {
  }

  /** What the pass may do to two sequences of which the first is the oldest unfinished: both stay, or
      the second is evicted. */
  lemma PairGranted(env: Env, before: State, cancelled: set<Ticket>, t: StepTrace)
    requires Small(env) && Granted(env, before, cancelled, t) && |before.active| == 2 && before.resume == []
    requires !SweepAll(before.active, cancelled)[0].finished
    ensures var g := GrantStart(env, before, cancelled);
      && |t.granted| + |t.evicted| == 2 && |t.granted| >= 1 && |t.resume| == |t.evicted|
      && OnlyGranted(g.seqs[0], t.granted[0]) && Reservations(t.granted) <= 4
      && (t.granted[0].paused <==> Need(g.seqs[0], 1, 8) + HeldByFinished(g.seqs) > 4)
      && Covered(t.granted[0], 1, 8) && t.granted[0].kvReservation <= Max(g.seqs[0].kvReservation, Full(g.seqs[0], 1, 8))
      && (|t.granted| == 2 ==>
            && OnlyGranted(g.seqs[1], t.granted[1]) && Thrifty(g, g.seqs[1], t.granted[1], false)
            && PausedForCause(g, t.granted[1], Reservations(t.granted)))
      && (|t.granted| == 1 ==>
            && t.evicted[0] in g.seqs
            && Need(g.seqs[0], 1, 8) + (Reservations(t.granted) - t.granted[0].kvReservation) + t.evicted[0].kvReservation > 4)
  {
    hide Reservations, InLockstep, HeldByFinished, YoungestFirst, SweepAll, Need, Full, Senior, PausedForCause, Covered, Thrifty, JobsConserved, OnlyGranted;
    var g := GrantStart(env, before, cancelled);
    assert Senior(g.seqs) == 0;
    PairCounted(g, t);
    if |t.granted| == 2 {
      assert t.kept[0] < t.kept[1];
    }
  }

  lemma PairCounted(g: Start, t: StepTrace)
    requires Steady(g, t.granted, t.lanes, t.resume, t.kept, t.evicted)
    ensures |t.granted| + |t.evicted| == |g.seqs|
  {
    ConservedCount(g.seqs, t.granted, t.evicted);
  }

  /** While neither of two running sequences needs more than it holds, the grants change nothing. */
  lemma PlainGrant(env: Env, before: State, t: StepTrace, n0: nat, n1: nat, g0: nat, g1: nat, m0: nat, m1: nat, k0: Ticket, k1: Ticket)
    requires Small(env) && Granted(env, before, {}, t) && |before.active| == 2 && before.resume == []
    requires Stands(before.active[0], k0, n0, g0, m0) && Stands(before.active[1], k1, n1, g1, m1) && n0 <= 2 && n1 <= 2
    ensures t.granted == before.active && t.resume == []
  {
    SweepsNobody(before.active);
    var g := GrantStart(env, before, {});
    PairReservations(g.seqs);
    PairGranted(env, before, {}, t);
    hide Granted, Reservations, HeldByFinished, Full, SweepAll;
    OneTokenBlocks(n0);
    OneTokenBlocks(n1);
    if |t.granted| == 1 {
      LoneReservation(t.granted);
      assert false;
    }
    PairReservations(t.granted);
    assert t.granted[0] == g.seqs[0] && t.granted[1] == g.seqs[1];
  }

  lemma LoneReservation(seqs: seq<JobSeq>)
    requires |seqs| == 1
    ensures Reservations(seqs) == seqs[0].kvReservation
  {
    assert seqs[..0] == [];
  }

  // ---- A round on its rows ----

  /** A sequence that owes one token gets it. */
  lemma RowMoves(env: Env, t: StepTrace, i: nat)
    requires Small(env) && Rounded(env, t) && t.round.promised && i < |t.granted|
    requires var s := t.granted[i]; !s.finished && !s.paused && s.generated < s.maxGen && 1 <= |s.tokens| <= 8 && s.processed + 1 == |s.tokens|
    ensures |t.seqs| == |t.outcomes| == |t.granted|
    ensures NotedAll(t.seqs, t.outcomes)[i] == t.seqs[i]
    ensures var s, s' := t.granted[i], t.seqs[i];
      && s'.slot == s.slot && s'.generated == s.generated + 1 && s'.maxGen == s.maxGen && |s'.tokens| == |s.tokens| + 1
      && s'.processed == |s.tokens| && s'.kvReservation == s.kvReservation && s'.paused == s.paused && s'.extra == s.extra
      && s'.finished == (s.generated + 1 >= s.maxGen)
  {
    hide Granted, Promised, InLockstep, Within, ShareOf;
    assert Settled(t.round.seqs[i], t.seqs[i], t.outcomes[i], ShareOf(t.round.seqs, t.round.ctx, t.round.chunk, t.round.budget, i), t.round.ctx, t.round.stops, t.round.model, t.round.sample, t.round.promised);
  }

  lemma StandingMoves(env: Env, t: StepTrace, i: nat, k: Ticket, n: nat, g: nat, m: nat)
    requires Small(env) && Rounded(env, t) && t.round.promised && i < |t.granted|
    requires Stands(t.granted[i], k, n, g, m) && n <= 8 && g < m
    ensures |t.seqs| == |t.outcomes| == |t.granted|
    ensures NotedAll(t.seqs, t.outcomes)[i].finished <==> g + 1 == m
    ensures g + 1 < m ==> Stands(NotedAll(t.seqs, t.outcomes)[i], k, n + 1, g + 1, m)
  {
    hide Rounded, Small, NotedAll;
    RowMoves(env, t, i);
  }

  lemma PairUnfinished(seqs: seq<JobSeq>)
    requires |seqs| == 2
    ensures Unfinished(seqs) == (if seqs[0].finished then [] else [seqs[0]]) + (if seqs[1].finished then [] else [seqs[1]])
  {
    var one := seqs[..1];
    assert one[..0] == [] && Unfinished(one) == if seqs[0].finished then [] else [seqs[0]];
  }

  /** Two running sequences inside their reservations each gain one token; who reaches its cap leaves. */
  lemma PlainStep(env: Env, before: State, t: StepTrace, after: State, n0: nat, n1: nat, g0: nat, g1: nat, m0: nat, m1: nat, k0: Ticket, k1: Ticket)
    requires Small(env) && Inv(env, before) && StepTaken(env, before, {}, t, after) && |before.active| == 2 && before.resume == []
    requires Stands(before.active[0], k0, n0, g0, m0) && Stands(before.active[1], k1, n1, g1, m1) && n0 <= 2 && n1 <= 2
    requires g0 < m0 && g1 < m1
    ensures after.resume == [] && after.queue == before.queue
    ensures |after.active| == (if g0 + 1 == m0 then 0 else 1) + (if g1 + 1 == m1 then 0 else 1)
    ensures g0 + 1 < m0 ==> Stands(after.active[0], k0, n0 + 1, g0 + 1, m0)
    ensures g1 + 1 < m1 ==> Stands(after.active[|after.active| - 1], k1, n1 + 1, g1 + 1, m1)
  {
    hide Small, Stands, Granted, Rounded, Inv, Running, Released, RoundEvents, RetireEvents, FreedSlots, NotedAll, Unfinished;
    GrantsPromise(env, before, {}, t);
    PlainGrant(env, before, t, n0, n1, g0, g1, m0, m1, k0, k1);
    StandingMoves(env, t, 0, k0, n0, g0, m0);
    StandingMoves(env, t, 1, k1, n1, g1, m1);
    PairUnfinished(NotedAll(t.seqs, t.outcomes));
  }

  // ---- The oldest, cornered ----

  /** The younger of two is cancelled while the older needs a third block: the older is paused, nobody
      being left to evict, and is still there afterwards. */
  lemma CorneredStep(env: Env, before: State, t: StepTrace, after: State, k0: Ticket, k1: Ticket)
    requires Small(env) && Inv(env, before) && StepTaken(env, before, {k1}, t, after) && |before.active| == 2 && before.resume == []
    requires k0 != k1 && Stands(before.active[0], k0, 3, 2, 3) && Stands(before.active[1], k1, 2, 1, 3)
    ensures t.granted != [] && t.granted[0].paused
    ensures after.active != [] && after.active[0].paused && !after.active[0].finished && after.active[0].extra.ticket == k0
  {
    hide Small, Stands, Granted, Rounded, Inv, Released, RoundEvents, RetireEvents, FreedSlots, NotedAll, Unfinished;
    CorneredGrant(env, before, t, k0, k1);
    IdleStays(env, t, 0);
    HeadSurvives(NotedAll(t.seqs, t.outcomes));
  }

  lemma CorneredGrant(env: Env, before: State, t: StepTrace, k0: Ticket, k1: Ticket)
    requires Small(env) && Granted(env, before, {k1}, t) && |before.active| == 2 && before.resume == []
    requires k0 != k1 && Stands(before.active[0], k0, 3, 2, 3) && Stands(before.active[1], k1, 2, 1, 3)
    ensures t.granted != [] && t.granted[0].paused && !t.granted[0].finished && t.granted[0].extra.ticket == k0
  {
    var g := GrantStart(env, before, {k1});
    PairReservations(g.seqs);
    PairGranted(env, before, {k1}, t);
    OneTokenBlocks(3);
    hide Granted, Reservations, HeldByFinished, Full;
  }

  lemma IdleStays(env: Env, t: StepTrace, i: nat)
    requires Rounded(env, t) && i < |t.granted| && t.granted[i].paused
    ensures |t.seqs| == |t.outcomes| == |t.granted| && NotedAll(t.seqs, t.outcomes)[i] == t.granted[i]
  {
    hide Granted, Promised, InLockstep, Within, ShareOf;
    assert Settled(t.round.seqs[i], t.seqs[i], t.outcomes[i], ShareOf(t.round.seqs, t.round.ctx, t.round.chunk, t.round.budget, i), t.round.ctx, t.round.stops, t.round.model, t.round.sample, t.round.promised);
  }

  lemma {:induction false} HeadSurvives(seqs: seq<JobSeq>)
    requires seqs != [] && !seqs[0].finished
    ensures Unfinished(seqs) != [] && Unfinished(seqs)[0] == seqs[0]
  {
    if |seqs| > 1 {
      HeadSurvives(seqs[..|seqs| - 1]);
    }
  }

  // ---- Only an evicted job left ----

  /** The older of two needs a third block: the younger is evicted, and the older is given the block. */
  lemma EvictingGrant(env: Env, before: State, t: StepTrace, k0: Ticket, k1: Ticket)
    requires Small(env) && Granted(env, before, {}, t) && |before.active| == 2 && before.resume == []
    requires Stands(before.active[0], k0, 3, 2, 3) && Stands(before.active[1], k1, 2, 1, 3)
    ensures |t.granted| == 1 && |t.resume| == 1
    ensures var s := t.granted[0]; !s.finished && !s.paused && s.generated == 2 && s.maxGen == 3 && |s.tokens| == 3 && s.processed == 2
  {
    hide Granted, Reservations, HeldByFinished, Full, SweepAll;
    SweepsNobody(before.active);
    var g := GrantStart(env, before, {});
    PairReservations(g.seqs);
    PairGranted(env, before, {}, t);
    OneTokenBlocks(3);
    if |t.granted| == 2 {
      PairReservations(t.granted);
      assert false;
    }
  }

  /** With its block the older reaches its cap and leaves; only the evicted job is left. */
  lemma EvictingStep(env: Env, before: State, t: StepTrace, after: State, k0: Ticket, k1: Ticket)
    requires Small(env) && Inv(env, before) && StepTaken(env, before, {}, t, after) && |before.active| == 2 && before.resume == []
    requires Stands(before.active[0], k0, 3, 2, 3) && Stands(before.active[1], k1, 2, 1, 3)
    ensures after.active == [] && |after.resume| == 1 && after.queue == before.queue
  {
    hide Small, Stands, Granted, Rounded, Inv, Running, Released, RoundEvents, RetireEvents, FreedSlots, NotedAll;
    GrantsPromise(env, before, {}, t);
    EvictingGrant(env, before, t, k0, k1);
    RowMoves(env, t, 0);
    var noted := NotedAll(t.seqs, t.outcomes);
    assert noted[..0] == [] && Unfinished(noted) == [];
  }

  // ---- Turns of the script ----

  lemma ThreeArrive(env: Env, st: State, a: QueuedJob, b: QueuedJob, c: QueuedJob)
    requires Inv(env, st) && st.active == [] && st.resume == [] && st.queue == []
    ensures var arrived := Intake(st, [Submit(a), Submit(b), Submit(c)]);
      Inv(env, arrived) && arrived.active == [] && arrived.resume == [] && arrived.queue == [a, b, c]
  {
    hide Inv;
    var commands := [Submit(a), Submit(b), Submit(c)];
    assert commands[..2] == [Submit(a), Submit(b)] && commands[..2][..1] == [Submit(a)] && commands[..2][..1][..0] == [];
    var st1 := Commanded(st, Submit(a));
    var st2 := Commanded(st1, Submit(b));
    SubmitKeepsInv(env, st, a);
    SubmitKeepsInv(env, st1, b);
    SubmitKeepsInv(env, st2, c);
    assert Intake(st, []) == st;
    assert Intake(st, [Submit(a)]) == st1;
    assert Intake(st, commands[..2]) == st2;
    assert Intake(st, commands) == Commanded(st2, Submit(c));
    assert [] + [a] == [a] && [a] + [b] == [a, b] && [a, b] + [c] == [a, b, c];
  }

  /** First turn: the first two enter and gain a token each, which is all the first asked for. */
  lemma FirstTurn(env: Env, st: State, a: QueuedJob, b: QueuedJob, c: QueuedJob, t: Option<StepTrace>, after: State)
    requires Small(env) && Inv(env, st) && st.active == [] && st.resume == [] && st.queue == []
    requires a.maxTokens == Some(1) && b.maxTokens == None
    requires StepDone(env, AfterAdmission(env, Intake(st, [Submit(a), Submit(b), Submit(c)]), GRANTED), true, {}, t, after)
    ensures |after.active| == 1 && after.resume == [] && after.queue == [c] && Stands(after.active[0], b.ticket, 2, 1, 3)
  {
    hide Small, Inv, Stands, StepTaken, AdmitQueue, ResumeAll, Intake, Advances;
    var arrived := Intake(st, [Submit(a), Submit(b), Submit(c)]);
    ThreeArrive(env, st, a, b, c);
    SmallServes(env);
    AdmitAdvances(env, arrived, true, {}, {});
    TwoEnter(env, arrived, a, b, c);
    PlainStep(env, AfterAdmission(env, arrived, GRANTED), t.value, after, 1, 1, 0, 0, 1, 3, a.ticket, b.ticket);
  }

  lemma SmallServes(env: Env)
    requires Small(env)
    ensures env.server.maxSlots == 2 && env.blockSize == 1
  {
  }

  /** Second turn: the third enters, and both gain a token. */
  lemma SecondTurn(env: Env, st: State, k: Ticket, c: QueuedJob, t: Option<StepTrace>, after: State)
    requires Small(env) && Inv(env, st) && |st.active| == 1 && st.resume == [] && st.queue == [c] && c.maxTokens == None
    requires Stands(st.active[0], k, 2, 1, 3)
    requires StepDone(env, AfterAdmission(env, st, GRANTED), true, {}, t, after)
    ensures |after.active| == 2 && after.resume == [] && after.queue == []
    ensures Stands(after.active[0], k, 3, 2, 3) && Stands(after.active[1], c.ticket, 2, 1, 3)
  {
    hide Small, Inv, Stands, StepTaken, AdmitQueue, ResumeAll, Advances;
    HoldsTwo(st.active[0], k, 2, 1, 3);
    OneJoins(env, st, c);
    SmallServes(env);
    AdmitAdvances(env, st, true, {}, {});
    PlainStep(env, AfterAdmission(env, st, GRANTED), t.value, after, 2, 1, 1, 0, 3, 3, k, c.ticket);
  }

  // ---- The scripts ----

  /** From a fresh worker: three jobs come in and two enter; the first reaches its cap; the third takes its
      place before the second can be topped up. */
  method TwoTurns(model: Model, bytes: Token -> seq<Byte>, sample: Logits -> Token, garbage: Cells) returns (worker: Worker)
    requires Shaped(garbage, 5, 1)
    ensures fresh(worker.Repr()) && worker.Valid() && Small(worker.Setting())
    ensures |worker.active.seqs| == 2 && worker.resume == [] && worker.queue == []
    ensures Stands(worker.active.seqs[0], 1, 3, 2, 3) && Stands(worker.active.seqs[1], 2, 2, 1, 3)
  {
    hide LlamaDecoder.Valid, Inv, Sound, StepTaken, Stands, AfterAdmission, Advances, Intake, StepDone;
    var decoder := new LlamaDecoder(model, 8, 2, 1, 4, garbage);
    worker := new Worker(SmallServer(bytes, sample), decoder);
    var a, b, c := QueuedJob(0, 0, Some(1)), QueuedJob(1, 0, None), QueuedJob(2, 0, None);
    var flow;
    ghost var t;
    ghost var st := worker.Now();
    flow, t := worker.Iterate([Submit(a), Submit(b), Submit(c)], GRANTED);
    FirstTurn(worker.Setting(), st, a, b, c, t, worker.Now());
    st := worker.Now();
    flow, t := worker.Iterate([], GRANTED);
    HousekeepingChangesNothing(st, []);
    SecondTurn(worker.Setting(), st, 1, c, t, worker.Now());
  }

  /** The branch of the grant pass that is called unreachable, reached: cancelled in the sweep, the younger
      sequence holds its blocks through the pass, so the oldest can neither grow nor evict, and it ends
      the turn paused. */
  method DeadEndIsReached(model: Model, bytes: Token -> seq<Byte>, sample: Logits -> Token, garbage: Cells) returns (worker: Worker)
    requires Shaped(garbage, 5, 1)
    ensures worker.Valid() && worker.active.seqs != []
    ensures worker.active.seqs[0].paused && !worker.active.seqs[0].finished && worker.active.seqs[0].extra.ticket == 1
  {
    hide LlamaDecoder.Valid, Inv, Sound, StepTaken, Stands, AfterAdmission, Advances, Intake, Small;
    worker := TwoTurns(model, bytes, sample, garbage);
    ghost var st := worker.Now();
    var flow;
    ghost var t;
    flow, t := worker.Iterate([], Signals(true, {}, true, {}, {2}));
    HousekeepingChangesNothing(st, []);
    FullAdmitsNobody(worker.Setting(), st, Signals(true, {}, true, {}, {2}));
    CorneredStep(worker.Setting(), st, t.value, worker.Now(), 1, 2);
  }

  lemma FullAdmitsNobody(env: Env, st: State, signals: Signals)
    requires Small(env) && |st.active| == 2
    ensures AfterAdmission(env, st, signals) == st
  {
  }

  /** A turn that leaves everything as it was: the youngest was evicted, everybody else finished, the
      model was unloaded, which nothing forbids, and now it does not load. */
  method StandstillIsReached(model: Model, bytes: Token -> seq<Byte>, sample: Logits -> Token, garbage: Cells)
    returns (worker: Worker, refused: bool, flow: Flow, ghost before: State)
    requires Shaped(garbage, 5, 1)
    ensures worker.Valid() && worker.active.seqs == [] && worker.queue == [] && |worker.resume| == 1
    ensures !refused && flow == Continue && worker.Now() == before
  {
    hide LlamaDecoder.Valid, Inv, Sound, StepTaken, Stands, AfterAdmission, Advances, Intake, Small;
    worker := TwoTurns(model, bytes, sample, garbage);
    before := worker.Now();
    ghost var t;
    flow, t := worker.Iterate([], GRANTED);
    HousekeepingChangesNothing(before, []);
    FullAdmitsNobody(worker.Setting(), before, GRANTED);
    EvictingStep(worker.Setting(), before, t.value, worker.Now(), 1, 2);
    var stop;
    stop, refused := worker.HandleCommand(Unload);
    before := worker.Now();
    var unloaded := Signals(false, {}, false, {}, {});
    flow, t := worker.Iterate([], unloaded);
    HousekeepingChangesNothing(before, []);
    SmallServes(worker.Setting());
    TurnMakesProgress(worker.Setting(), before, unloaded, t, worker.Now());
  }
}
