# Verified models of burn-lm's serving core

A Dafny model of four parts of burn-lm and proofs about them.

- **Scheduling.** The continuous-batching worker (`Worker.dfy`, with `Admission.dfy`, `Growth.dfy`,
  `Turns.dfy`, `Progress.dfy`, `Serving.dfy`), what its admission decides job by job (`Verdicts.dfy`), the
  per-round decode core (`Batching.dfy`), the emission thread (`Emission.dfy`, `Events.dfy`) and the bounded
  submission channel (`Submit.dfy`). `Service.dfy` composes worker and emission thread into what a caller
  finally sees; `Corners.dfy` runs two scripts into the worker's odd corners.
- **The paged KV cache.** The block ledger (`BlockPool.dfy`), the physical store (`BlockStore.dfy`), the
  round plan (`PagedCache.dfy`), the decoder over it (`Decoder.dfy`), and the cache replayed against plain
  sequences (`Replay.dfy`).
- **Paged attention.** The online-softmax recurrence (`OnlineSoftmax.dfy`), the oracle (`Oracle.dfy`), the
  kernel with its plane split, masked vector reads and output addressing (`PlaneDot.dfy`,
  `PlaneSplit.dfy`, `Kernel.dfy`), the masked reference (`Reference.dfy`) and their agreement on the cache's
  own stores (`Agreement.dfy`), over shared geometry (`Attention.dfy`, `FiniteSums.dfy`).
- **Streaming UTF-8.** `Utf8.dfy`, following section 4 of RFC 3629 and the maximal-subpart replacement of
  section 3.9 of the Unicode Standard.

`dafny verify dfyconfig.toml` checks everything.

## How the parts meet

The scheduler's promise to the cache is `Batching.Promised`: reservations add up to at most the pool, every
lane is inside its sequence's reservation, and whoever runs this round stays inside it. Admission and the
grant pass keep it (`Turns.GrantedIsPromised`), the ledger turns it into free blocks
(`Batching.UseIsReserved`, `Decoders.NeedIsGrowth`), and so the planner never refuses a live sequence
(`Progress.StepTruthful`). That is the accounting argument the two components share and neither states.

The network is a pair of functions: `row` makes a token's KV row from the rows before it, `head` makes the
logits of a lane's rows. What a job produces alone is `Serving.Solo`, greedy decoding of its own prompt;
`Serving.Faithful` and `Serving.BeginningOfSolo` compare with it everything a caller is sent.

The functions the methods are proved against are in turn said in plain words, without naming them: the solo
run (`Serving.SoloIsGreedy`), admission (`Verdicts`), what a round does to each sequence
(`Progress.OneRound`, `Progress.PromptReadsItsShare`, `Progress.RoundIsBounded`), what the grants hand out
(`Growth.FewestBlocks`), who is told that it was cancelled (`Progress.RepliesSignalled`,
`Progress.CancelIsHonoured`), and what any bytes decode to (`Utf8.TextIsKept`, `Utf8.SubpartIsReplaced`,
`Utf8.CutIsReplaced`, `Utf8.InputIsDecided`).

Attention is over `real`, with the exponential a function parameter known only to be positive, with `exp(0) = 1`
and `exp(a + b) = exp(a) * exp(b)`.

## Where the code and its comments differ

The model follows the code.

- `begin_round` rolls a failed round back with `split_off` and `extend`
  (`crates/burn-lm-paged-kv/src/block_pool.rs:137-140`): the free stack comes back as a multiset, not in
  its old order, although its test speaks of the stack "exactly as it was".
- A prefill that fails past position 0 leaves the chunks already in the lane
  (`crates/burn-lm-llama/src/nn/llama/inference.rs:105-123`), while the decoder trait asks for a slot as if
  never used (`crates/burn-lm-inference/src/batching.rs:105-107`). The retire path's release makes up for it.
- The branch of the grant pass called unreachable
  (`crates/burn-lm-inference/src/channels/batching/worker.rs:603-613`) can be reached, because the cancel
  sweep marks younger sequences finished before the pass and they keep their blocks until they retire.
  `Corners.DeadEndIsReached` is a run from a fresh worker that ends there; the exact condition, the senior's
  need against what the finished hold, is in the contract of `Growth.GrantKvGrowth`.
- Evicted jobs are tried first, but if the top one does not fit the queue is still served (lines 324-326 and
  354 of the same file), so there is no strict priority.
- Unload and clear-state look at the active set and the queue, not at evicted jobs (lines 263 and 276). This
  is harmless, as `Workers.Worker.ClearLanes` shows.
- "At most one prefill" per round (lines 201 and 628) is stale: the rule is the token allowance.
- The reservation field is documented as the worst case fixed at admission
  (`crates/burn-lm-inference/src/batching.rs:270-276`); under elastic admission it starts lower and grows.
- A turn makes no progress in one situation: the model cannot be loaded, nobody runs, and only evicted jobs
  wait; the resume loop breaks and nobody is answered. `Progress.TurnMakesProgress` makes it the only one,
  `Corners.StandstillIsReached` runs into it.
- A submission can be shed while permits are free, because another shed submission has not yet taken its
  count back (`Backpressure.ShedWithRoom`); the comment in `submit` names only the worker's side of this.

## Model

| member | source | states |
|---|---|---|
| `Service.Serve` | crates/burn-lm-inference/src/channels/batching/worker.rs:88-206 | A whole service run: any script of turns; unless it told the worker to stop, turns without submissions until nobody waits; then the end of the channel. Every job ever admitted gets exactly one honest report, every ticket submitted is admitted, answered from the queue, or, only after a shutdown, still in the queue, and the tickets a job may be called cancelled for are those whose signal fired in one of these turns |
| `Service.OneHonestReport` | crates/burn-lm-inference/src/channels/batching/emission.rs:93-131 | Whatever reachable state the worker is in when its channel closes, each admitted job gets exactly one report: its text is the lossy decoding of the bytes of a beginning of the job's solo greedy run; an `Ok` that is not a cancel has the whole run's text, finish reason and token count; a cancel is reported only to a job whose signal fired while it ran, with the text of exactly the tokens it counts; and an error is the request's own fault or the worker's death, never the pool's |
| `Progress.SchedulingIsInvisible` | crates/burn-lm-inference/src/batching.rs:505-646 | In every state satisfying the worker's invariant each admitted job has been sent exactly the bytes of a beginning of its solo greedy run, and once answered without cancel or error the whole run with the run's own finish reason and token count; a cancelled job the bytes of exactly the tokens its reply counts: batching, chunking, pausing, evicting and resuming never show |
| `Workers.Worker.Run` | crates/burn-lm-inference/src/channels/batching/worker.rs:110-152 | Any number of turns under any commands, arrivals, cancels and load failures keeps the invariant, so every job's delivery is on its solo course throughout and no reply blames the pool; the tickets remembered as cancelled while running are those of these turns' signals; the run ends early only on a shutdown command or with nobody left |
| `Workers.Worker.Drain` | crates/burn-lm-inference/src/channels/batching/worker.rs:159-206 | Without new submissions, with at least one slot, whatever lifecycle commands come in between, and with a model that is not refused to evicted jobs forever, the worker reaches a state with nobody queued, evicted or running, and every job is answered; the lexicographic measure is jobs outstanding, then whether anybody runs, then what the oldest has left |
| `Progress.TurnMakesProgress` | crates/burn-lm-inference/src/channels/batching/worker.rs:159-206 | Every turn that takes in no submission lowers that measure, except exactly when nobody is active or queued and the model cannot be borrowed for the evicted jobs; then it changes nothing |
| `Corners.StandstillIsReached` | crates/burn-lm-inference/src/channels/batching/worker.rs:308-312 | That exception is reached from a fresh worker, for every model and tokenizer: the youngest is evicted, everybody else finishes, an unload goes through, and with the model not loading a whole turn leaves the state as it was |
| `Progress.RepliesSignalled` | crates/burn-lm-inference/src/channels/batching/worker.rs:799-807 | A job is told that it was cancelled only if its ticket is among those whose signal fired while it ran |
| `Progress.StepSignals` | crates/burn-lm-inference/src/channels/batching/worker.rs:647-652 | A step keeps it so: what it adds is this turn's signals |
| `Progress.CancelIsHonoured` | crates/burn-lm-inference/src/channels/batching/worker.rs:644-652 | Conversely a running job whose signal fires is answered `Aborted` in that very round, finished or not, evicted others or not, with the tokens it had generated and no byte more |
| `Progress.StepErrors` | crates/burn-lm-inference/src/channels/batching/worker.rs:731-737 | A round over a loaded model sends no error but a length beyond the context window, with both numbers right |
| `Progress.LoadFailuresInOrder` | crates/burn-lm-inference/src/channels/batching/worker.rs:706-718 | A round without the model sends the load error to everybody running, once each, in order |
| `Progress.IntakeQueues` | crates/burn-lm-inference/src/channels/batching/worker.rs:188-195 | Submissions join the back of the queue in the order they came, and nothing else moves |
| `Progress.DrainedIsAnswered` | crates/burn-lm-inference/src/channels/batching/worker.rs:820-832 | With nobody waiting or running, the tickets submitted are exactly those answered from the queue and those of admitted jobs, and each admitted job has its reply |
| `Workers.Worker.Iterate` | crates/burn-lm-inference/src/channels/batching/worker.rs:159-206 | One turn is intake, admission (resumes, then the queue), one round with its retirements; it stops exactly on a shutdown command, or when idle with no command to come |
| `Workers.Worker.TakeIn` | crates/burn-lm-inference/src/channels/batching/worker.rs:170-195 | Commands take effect in order up to the first shutdown; those after it are not seen; the jobs submitted before it join the back of the queue in the order they came, and nothing else moves |
| `Workers.Worker.HandleCommand` | crates/burn-lm-inference/src/channels/batching/worker.rs:229-286 | A submission joins the back of the queue; unload and clear-state are refused exactly while somebody is active or queued (evicted jobs do not count) and, when they go through, lose nothing any job needs |
| `Workers.Worker.ClearLanes` | crates/burn-lm-inference/src/channels/batching/worker.rs:259-282 | Clearing an idle decoder changes no lane: with nobody active every lane is already empty, evicted jobs included |
| `Progress.IdleLanesAreEmpty` | crates/burn-lm-inference/src/channels/batching/worker.rs:259-282 | Every lane is empty when nobody is active |
| `Workers.Worker.ResumeEvicted` | crates/burn-lm-inference/src/channels/batching/worker.rs:308-352 | The jobs that re-enter are exactly the last so many of the stack, latest first, behind those running, each with its tokens, counts and id, its cursor at 0, the lowest free slot and the blocks it must be guaranteed; and afterwards the stack is empty, or the set is full, or the model cannot be borrowed, or the top job's blocks do not fit beside all reservations: its worst case when nobody runs or under `Reserve`, otherwise its tokens and one more, both cut to the context |
| `Workers.Worker.ResumeNext` | crates/burn-lm-inference/src/channels/batching/worker.rs:312-351 | The top evicted job re-enters exactly when the model can be borrowed and those blocks fit beside all reservations, with its tokens and counts intact and its cursor at 0 |
| `Workers.Worker.AdmitQueued` | crates/burn-lm-inference/src/channels/batching/worker.rs:354-509 | The jobs that leave are the first so many of the queue: each whose cause calls for an error is answered with exactly that, in order; the others, whose signal did not fire and for whom the model loads, sit behind those running in queue order under the next ids, on the lowest free slots, with their own prompt, the tighter cap and the guaranteed blocks; and afterwards the set is full, or the queue is empty, or the front job has no cause to be turned away and its guarantee exceeds the unreserved blocks |
| `Workers.Worker.AdmitNext` | crates/burn-lm-inference/src/channels/batching/worker.rs:359-508 | The front job is answered exactly with the error its cause calls for, if it has one; otherwise it waits exactly when what it must be guaranteed does not fit, and else is seated |
| `Verdicts.Cause` | crates/burn-lm-inference/src/channels/batching/worker.rs:363-421 | Why a queued job is turned away: `Cancelled` if and only if its signal fired; otherwise the load error if and only if the model is refused; otherwise the tokenizer's if and only if it fails; otherwise `KvPoolExhausted` with the exact excess if and only if its worst case exceeds the whole pool; otherwise nothing |
| `Verdicts.VerdictIsCause` | crates/burn-lm-inference/src/channels/batching/worker.rs:363-437 | The gate's verdict on a job is its cause, or to wait for exactly the blocks it must be guaranteed, or to enter with them |
| `Verdicts.QueueServed` | crates/burn-lm-inference/src/channels/batching/worker.rs:354-509 | Serving the queue, said job by job: who is turned away and why, who enters where and on what, in order, and why whoever is left must wait |
| `Verdicts.StackReturned` | crates/burn-lm-inference/src/channels/batching/worker.rs:308-352 | Resuming, said job by job: a suffix of the stack re-enters, latest first, and whoever is left waits for a slot, the model or blocks |
| `Verdicts.EvictedComeFirst` | crates/burn-lm-inference/src/channels/batching/worker.rs:304-355 | A whole admission resumes as many evicted jobs as fit before it looks at the queue |
| `Verdicts.OneReturns` | crates/burn-lm-inference/src/channels/batching/worker.rs:312-326 | The top evicted job re-enters if and only if the model loads and its blocks fit |
| `Verdicts.OneDecided` | crates/burn-lm-inference/src/channels/batching/worker.rs:363-437 | The front job is turned away if and only if it has a cause, and waits if and only if it has none and its blocks do not fit |
| `Workers.Worker.Guarantee` | crates/burn-lm-inference/src/channels/batching/worker.rs:427-437 | The test against the unreserved blocks is whether all reservations with this one still fit the pool, and the guarantee covers the next forward and the first token generated, and every length the sequence can reach when it is alone or under `Reserve` |
| `Admission.GuaranteeCovers` | crates/burn-lm-inference/src/channels/batching/worker.rs:422-433 | What a guarantee is worth: the lengths whose blocks it covers |
| `Workers.Worker.FindFreeSlot` | crates/burn-lm-inference/src/channels/batching/worker.rs:453-455 | The slot found is below `max_slots`, unused, and the lowest such |
| `Workers.Worker.Step` | crates/burn-lm-inference/src/channels/batching/worker.rs:631-832 | One round keeps the invariant and makes progress; the only error it sends is a length past the context window; every running job whose signal fired is answered `Aborted` in that very round with the tokens it had generated; when the model cannot be borrowed everybody running is answered with the load error, once each and in order, and nobody else is touched |
| `Workers.Worker.SweepCancelled` | crates/burn-lm-inference/src/channels/batching/worker.rs:647-652 | Exactly the unfinished sequences whose signal fired become finished and cancelled |
| `Workers.Worker.Ship` | crates/burn-lm-inference/src/channels/batching/worker.rs:737-761 | The round sends each failure as a reply in order and then at most one token event with all the round's bytes; a stop token is noted, not streamed; with nothing to say no event is sent |
| `Workers.Worker.RetireFinished` | crates/burn-lm-inference/src/channels/batching/worker.rs:769-820 | Exactly the finished leave the set and everybody else stays, all in order; each who leaves is replied to, with its token count and why it ended: `Aborted` if and only if it was cancelled, `Length` if and only if it was neither cancelled nor stopped and reached its cap, otherwise `Stop`; their slots are reported |
| `Workers.Worker.ReleaseAll` | crates/burn-lm-inference/src/channels/batching/worker.rs:822-831 | After releasing the retired slots those lanes are empty and no other lane moved |
| `Workers.Worker.FailActive` | crates/burn-lm-inference/src/channels/batching/worker.rs:706-718 | Losing the model sends everybody running the load error and empties the set |
| `Workers.Worker.Grant` | crates/burn-lm-inference/src/channels/batching/worker.rs:677-684 | The worker's grant pass meets the whole contract of the pass, against the decoder's own budget and context, evictions from the youngest to the older included |
| `Growth.GrantKvGrowth` | crates/burn-lm-inference/src/channels/batching/worker.rs:518-620 | The whole contract of the pass: it ends; jobs in active and resume are conserved with their tokens and counts; reservations of survivors only grow and their sum stays in the budget; every unfinished unpaused sequence is covered; whoever is paused lacks more than the pool has left; the senior survives in place, is topped up first, and ends paused if and only if its need does not fit beside the blocks finished sequences still hold; the evicted go from the youngest to the older and are younger than every unfinished survivor but the senior, and without the last eviction the senior would not fit; everyone else grows to exactly its need or not at all |
| `Growth.GrantNext` | crates/burn-lm-inference/src/channels/batching/worker.rs:540-619 | One decision of the pass keeps all of that and lowers `active.len() - index` |
| `Growth.TopUpSenior` | crates/burn-lm-inference/src/channels/batching/worker.rs:528-537 | The oldest unfinished sequence gets its worst case, or all the slack there is, before anybody else grows |
| `Growth.FewestBlocks` | crates/burn-lm-inference/src/channels/batching/worker.rs:531-533 | What a sequence needs now, and what it can ever need, are the fewest blocks that hold its tokens, now or with all it may still generate, as far as the context reaches |
| `Growth.FallsFurther` | crates/burn-lm-inference/src/channels/batching/worker.rs:573-578 | Each eviction takes somebody older than those evicted before |
| `Growth.LonelySenior` | crates/burn-lm-inference/src/channels/batching/worker.rs:603-613 | With nobody left to evict, an uncovered senior shares the pool with finished sequences alone and does not fit beside them |
| `Growth.CoveredSenior` | crates/burn-lm-inference/src/channels/batching/worker.rs:550-554 | Conversely, a senior that is covered fits beside the blocks finished sequences hold |
| `Corners.DeadEndIsReached` | crates/burn-lm-inference/src/channels/batching/worker.rs:603-613 | The branch documented as unreachable is reached from a fresh worker, for every model and tokenizer: after three turns the oldest sequence is unfinished and paused, because the younger one was cancelled in the sweep and still held its blocks |
| `Corners.TwoTurns` | crates/burn-lm-inference/src/channels/batching/worker.rs:296-510 | A scripted run evaluated through admission, grants and rounds: where two turns of a small elastic server leave its two sequences |
| `Growth.StaysYoungestFirst` | crates/burn-lm-inference/src/channels/batching/worker.rs:573-578 | Evicting the last unfinished sequence keeps the evicted younger than every unfinished survivor but the senior |
| `Growth.EvictSteady` | crates/burn-lm-inference/src/channels/batching/worker.rs:579-601 | An eviction loses no job, empties the victim's lane, and moves no other lane, slot or reservation |
| `Growth.FullNeverLacks` | crates/burn-lm-inference/src/channels/batching/worker.rs:676-677 | With full reservations, as under `Reserve`, nobody ever lacks a block in the pass |
| `Turns.SweepKeepsRunning` | crates/burn-lm-inference/src/channels/batching/worker.rs:644-652 | The cancel sweep keeps every job in flight, once, on its course |
| `Turns.GrantKeepsRunning` | crates/burn-lm-inference/src/channels/batching/worker.rs:576-602 | Granting, pausing and evicting keep every job in flight, once, on its course; an evicted job keeps the tokens it will prefill again |
| `Turns.GrantedIsPromised` | crates/burn-lm-inference/src/batching.rs:270-277 | After the pass reservations fit the pool, every lane is inside its sequence's reservation, and whoever will run stays inside it |
| `Turns.OneSeqShipped` | crates/burn-lm-inference/src/channels/batching/worker.rs:738-758 | Whatever a round does to one job, what its caller has received is a beginning of its solo run, and the whole of it if the job is finished without cancel or error; a failed job is already answered |
| `Turns.StopShipped` | crates/burn-lm-inference/src/batching.rs:636-639 | A stop token ends the solo run and is not streamed |
| `Turns.RoundHit` | crates/burn-lm-inference/src/channels/batching/worker.rs:737-761 | Each sequence's own outcome is what the round's events do to its delivery |
| `Turns.RoundMiss` | crates/burn-lm-inference/src/channels/batching/worker.rs:737-761 | A round's events touch no other job's delivery |
| `Turns.RoundIsOneEvent` | crates/burn-lm-inference/src/channels/batching/worker.rs:737-761 | A round's failures go out as they come, and all its tokens in one event behind them, or in none if there are none |
| `Turns.RoundShipped` | crates/burn-lm-inference/src/channels/batching/worker.rs:731-761 | A completed round, shipped, leaves every job on course or ready for a truthful reply |
| `Turns.RetirementQuiet` | crates/burn-lm-inference/src/channels/batching/worker.rs:763-831 | Retiring the finished restores the invariant between turns: each is answered with the truth, an `Ok` after an `Err` for the same job changes nothing, and the freed lanes are empty |
| `Turns.RetiredHoused` | crates/burn-lm-inference/src/channels/batching/worker.rs:822-831 | After retirement slots are distinct, every survivor's lane holds its processed prefix and every other lane is empty |
| `Turns.WhoRetires` | crates/burn-lm-inference/src/channels/batching/worker.rs:769-820 | The same of the specification: who stays, who goes, in what order and with what reply |
| `Turns.LoadFailureQuiet` | crates/burn-lm-inference/src/channels/batching/worker.rs:706-718 | Losing the model answers everybody who was running and keeps everybody who was waiting |
| `Admission.Pigeonhole` | crates/burn-lm-inference/src/channels/batching/worker.rs:328-333 | Distinct slots below `max_slots`, fewer than `max_slots` of them: some slot is free |
| `Admission.SlotIsFound` | crates/burn-lm-inference/src/channels/batching/worker.rs:453-455 | The lowest-free-slot search succeeds whenever the set is not full |
| `Admission.GenerationCap` | crates/burn-lm-inference/src/channels/batching/worker.rs:396-401 | A job runs under the tighter of its own request and the server's cap |
| `Admission.AdmitKeepsInv` | crates/burn-lm-inference/src/channels/batching/worker.rs:427-508 | Admitting the front job keeps the invariant; releasing its lane first changes nothing, since the lane was already empty |
| `Admission.ResumeKeepsInv` | crates/burn-lm-inference/src/channels/batching/worker.rs:312-351 | A resumed job continues exactly where its stream stopped |
| `Admission.FirstResumes` | crates/burn-lm-inference/src/channels/batching/worker.rs:308-326 | Into an empty set the top evicted job always fits |
| `Admission.ParkedFitsAlone` | crates/burn-lm-inference/src/channels/batching/worker.rs:315-319 | What an evicted job still needs at most is never more than the whole pool |
| `Admission.AnswerKeepsInv` | crates/burn-lm-inference/src/channels/batching/worker.rs:363-421 | Answering the front job with an error keeps everybody in flight as they were |
| `Admission.AdmitQueueKeepsInv` | crates/burn-lm-inference/src/channels/batching/worker.rs:354-509 | Serving the queue keeps the invariant, leaves the running sequences in place and accounts for everybody taken off it |
| `Admission.ResumeAllKeepsInv` | crates/burn-lm-inference/src/channels/batching/worker.rs:308-352 | Resuming keeps the invariant and leaves the running sequences in place |
| `Progress.SeniorIsFirst` | crates/burn-lm-inference/src/channels/batching/worker.rs:523-539 | If nobody is finished after the grants, the first sequence is the oldest there was: never evicted, never paused |
| `Progress.FirstIsServed` | crates/burn-lm-inference/src/batching.rs:378-388 | The first sequence always gets a share of a non-zero prefill allowance |
| `Progress.RunningMoves` | crates/burn-lm-inference/src/batching.rs:505-610 | A sequence that gets a share finishes or has strictly less left to do |
| `Progress.OneRound` | crates/burn-lm-inference/src/batching.rs:433-470 | A round in plain words, for each sequence the grants left: finished and paused ones stand still; one with nothing to do is finished, one longer than the context with that error; anybody else reads on, and who has read everything gains exactly the one greedy token after it, finished exactly by a stop token or its cap |
| `Progress.RoundIsBounded` | crates/burn-lm-inference/src/batching.rs:345-368 | While somebody decodes and the operator set an allowance, the prompt tokens a whole round reads total at most that allowance |
| `Progress.PromptReadsItsShare` | crates/burn-lm-inference/src/batching.rs:505-530 | Every waiting prompt reads a whole chunk, or all it has left, or all that the prompts before it left of the allowance: no less and no more |
| `Progress.StepAdvances` | crates/burn-lm-inference/src/channels/batching/worker.rs:631-832 | A round over a loaded model lowers the measure |
| `Progress.AdmitAdvances` | crates/burn-lm-inference/src/channels/batching/worker.rs:296-510 | Admission into an idle worker starts or answers somebody, unless the model cannot be loaded and only evicted jobs wait for it |
| `Progress.FrontNeverWaits` | crates/burn-lm-inference/src/channels/batching/worker.rs:422-437 | With nobody running, the front of the queue is admitted or answered, never left waiting |
| `Progress.ReserveNeverWaits` | crates/burn-lm-inference/src/channels/batching/worker.rs:676-677 | Under `Reserve` the pass pauses nobody and evicts nobody |
| `Progress.StepTruthful` | crates/burn-lm-paged-kv/src/cache.rs:29-38 | With the promise kept nothing a round sends blames the pool: `PoolExhausted` is unreachable for live sequences under both admission modes |
| `Progress.RepliesTruthful` | crates/burn-lm-inference/src/channels/batching/emission.rs:46-52 | An answered job's error is one that was sent for it |
| `Progress.StepKeepsInv` | crates/burn-lm-inference/src/channels/batching/worker.rs:631-832 | A round keeps every delivery on its solo course and every reply faithful |
| `Emissions.EveryCallerAnswered` | crates/burn-lm-inference/src/channels/batching/emission.rs:93-131 | Each admitted job gets exactly one reply, the first sent for it or `WorkerDied` if the worker was gone before, and all its text, delivered before the reply, is the lossy decoding of exactly the bytes sent for it before that reply |
| `Emissions.ReportedOnce` | crates/burn-lm-inference/src/channels/batching/emission.rs:46-52 | However often a job is retired it is reported once, at the first; later events for it change nothing |
| `Emissions.ClosingAnswers` | crates/burn-lm-inference/src/channels/batching/emission.rs:126-130 | The disconnection answers every delivery still live, and only those |
| `Emissions.Run` | crates/burn-lm-inference/src/channels/batching/emission.rs:93-131 | After any events, cut off at any point, with each id admitted once, every admitted job has exactly one reply, the first sent for it or `WorkerDied`, with all its text before it, in whatever order the live map is drained |
| `Emissions.Emission.DeliverBatch` | crates/burn-lm-inference/src/channels/batching/emission.rs:112-118 | A round's batch reaches each live stream in order and nobody else |
| `Emissions.Emission.Retire` | crates/burn-lm-inference/src/channels/batching/emission.rs:119-123 | The first retirement flushes, replies and forgets; a later one does nothing |
| `Emissions.Emission.Drain` | crates/burn-lm-inference/src/channels/batching/emission.rs:126-130 | Everybody still live is flushed and answered with `WorkerDied` |
| `Emissions.Stream.Deliver` | crates/burn-lm-inference/src/channels/batching/emission.rs:64-68 | The text written so far is what a streaming decoder has said of all bytes pushed |
| `Emissions.Stream.Finish` | crates/burn-lm-inference/src/channels/batching/emission.rs:73-78 | With the flush the text is the one-shot lossy decoding of all bytes pushed |
| `Serving.CourseContinues` | crates/burn-lm-inference/src/batching.rs:631-646 | One more greedy token keeps a job on its solo course, unless it is a stop token |
| `Serving.CourseEnds` | crates/burn-lm-inference/src/batching.rs:636-639 | A job on course at its cap has generated its whole solo run |
| `Serving.SoloIsGreedy` | crates/burn-lm-inference/src/batching.rs:612-650 | The solo run in plain words: every token is the greedy one after the prompt and those before it and no stop token; it ends at the cap, or at a stop token, or at once on an empty prompt; and its reason and token count say which |
| `Batching.StepRound` | crates/burn-lm-inference/src/batching.rs:417-613 | One round does to each sequence exactly what it would do to it alone with its share of the allowance, whatever else is in the batch, when the promise holds; lanes, cursors and slots stay in lockstep; without the promise the planner may fail a prompt where it stands, or all decode rows together |
| `Batching.Classify` | crates/burn-lm-inference/src/batching.rs:433-470 | Finished and paused sequences are left alone, no-ops retire, over-long ones fail alone before the fused decode, the rest are prompts or decode rows in order |
| `Batching.PrefillPass` | crates/burn-lm-inference/src/batching.rs:505-566 | Prompts share the allowance oldest first; each call covers the contiguous range from the lane's current length |
| `Batching.PrefillOne` | crates/burn-lm-inference/src/batching.rs:528-565 | An intermediate chunk samples nothing; the chunk that completes the prompt samples what a one-shot prefill would |
| `Batching.DecodePass` | crates/burn-lm-inference/src/batching.rs:568-610 | The fused decode advances every row on its own greedy token, or retires every row with one and the same error |
| `Batching.FanOut` | crates/burn-lm-inference/src/batching.rs:579-608 | Each row's result reaches its own sequence, in row order |
| `Batching.PrefillBudget.ForRound` | crates/burn-lm-inference/src/batching.rs:350-368 | The allowance binds only while something decodes and the operator set one |
| `Batching.PrefillBudget.AdmitPrefill` | crates/burn-lm-inference/src/batching.rs:378-388 | A claim gets what it wants or what is left, and that much is gone; a spent allowance defers |
| `Batching.AllowanceBounds` | crates/burn-lm-inference/src/batching.rs:370-377 | The prompt tokens of one round never exceed the allowance |
| `Batching.OldestFirst` | crates/burn-lm-inference/src/batching.rs:376-377 | A prompt gets tokens only if every earlier prompt got all it wanted |
| `Batching.UseIsReserved` | crates/burn-lm-inference/src/batching.rs:270-277 | The blocks lanes physically use never exceed what their sequences reserved, whatever the slot order |
| `Batching.RowsFit` | crates/burn-lm-inference/src/batching.rs:568-577 | The fused call fits: every row's lane grows inside its own reservation, the pool and the context window |
| `Batching.EachCallIsAChunk` | crates/burn-lm-inference/src/batching.rs:512-526 | One prefill call reads at most a chunk and never past the prompt |
| `Decoders.LlamaDecoder.ForwardLanes` | crates/burn-lm-llama/src/nn/llama/inference.rs:69-93 | A forward goes through exactly when every slot stays inside the window and the extended lanes fit the pool; then each row's logits are those of its own lane's whole token prefix and only the named lanes grew; otherwise nothing changed and the error names the first lane past the window and the length it would reach, or the blocks the first unserved lane is short of |
| `Decoders.LlamaDecoder.Prefill` | crates/burn-lm-llama/src/nn/llama/inference.rs:105-123 | A slice at position 0 starts from an empty lane, later slices extend it; a failure leaves the chunks already in and says what was exceeded and by how much |
| `Decoders.LlamaDecoder.Decode` | crates/burn-lm-llama/src/nn/llama/inference.rs:129-135 | One fused call advances every row's lane by one token, or none |
| `Decoders.LlamaDecoder.Release` | crates/burn-lm-llama/src/nn/llama/inference.rs:137-139 | The slot's lane is empty and no other lane moved; a free slot or one past the lanes is left alone |
| `Decoders.LlamaDecoder.LedgerMatchesLanes` | crates/burn-lm-paged-kv/src/block_pool.rs:95-99 | Free blocks and the blocks lanes occupy add up to the pool |
| `Decoders.NeedIsGrowth` | crates/burn-lm-paged-kv/src/block_pool.rs:163-188 | What a round must allocate is what the lanes occupy afterwards less what they occupy before |
| `Decoders.LlamaDecoder.Compute` | crates/burn-lm-llama/src/nn/llama/inference.rs:86-88 | New rows are computed from exactly the lane's own history, read back through the plan |
| `PagedCaches.PagedKvCache.PrepareLanes` | crates/burn-lm-paged-kv/src/cache.rs:228-341 | Planning succeeds exactly when every lane stays in the window and the round's blocks are free; the plan's starts, lengths, tables, mask, gather and write index describe one and the same round; on failure nothing moved and the error gives the first too long lane's length and the limit, or the blocks missing |
| `PagedCaches.TooLong` | crates/burn-lm-paged-kv/src/cache.rs:242-249 | The length reported is that of the first lane that would pass the window |
| `PagedCaches.PagedKvCache.Write` | crates/burn-lm-paged-kv/src/block_store.rs:44-61 | After a planned round each of its lanes keeps its history and gains its rows in order; no other lane sees anything; the sentinel stays zero |
| `PagedCaches.PagedKvCache.GatherReadsLane` | crates/burn-lm-paged-kv/src/block_store.rs:90-115 | Gathering a lane returns exactly its values in position order |
| `PagedCaches.PagedKvCache.NeutralizedIsLaneThenZeros` | crates/burn-lm-paged-kv/src/block_store.rs:168-187 | The neutralised scratch is the lane followed by zeros, whatever the never-written cells hold |
| `PagedCaches.LastRowIsTheLength` | crates/burn-lm-paged-kv/src/block_store.rs:176-179 | The last query row leaves exactly the columns up to the lane's length unmasked |
| `PagedCaches.BuildMask` | crates/burn-lm-paged-kv/src/cache.rs:275-287 | Query `r` of a lane sees exactly the columns `0..=start + r` |
| `PagedCaches.BuildAddressing` | crates/burn-lm-paged-kv/src/cache.rs:296-319 | Covering blocks, sentinel-padded, and lengths from one snapshot |
| `PagedCaches.DestinationsDistinct` | crates/burn-lm-paged-kv/src/block_store.rs:205-223 | One round's write destinations are pairwise distinct, in bounds, and never in the sentinel block |
| `PagedCaches.HistoryNotOverwritten` | crates/burn-lm-paged-kv/src/block_store.rs:205-223 | No destination is a cell that holds an earlier position of any lane, in the round or not |
| `PagedCaches.HistoryKept` | crates/burn-lm-paged-kv/src/block_pool.rs:163-188 | Growing tables moves nothing a lane already holds |
| `PagedCaches.PagedKvCache.ResetLane` | crates/burn-lm-paged-kv/src/cache.rs:350-363 | The lane is empty and every other lane stands; a lane past the ledger is ignored |
| `PagedCaches.PagedKvCache.Reset` | crates/burn-lm-paged-kv/src/cache.rs:343-348 | Every lane is empty |
| `Replays.Replay` | crates/burn-lm-paged-kv/src/cache.rs:228-363 | Over every run of rounds, lane resets and whole resets, fitting or not, the paged cache holds exactly what one plain growing sequence per lane holds |
| `Replays.PlannerIsFits` | crates/burn-lm-paged-kv/src/cache.rs:242-261 | The planner accepts exactly the rounds whose extended lanes fit the window and the pool |
| `Replays.AppendedIsPushed` | crates/burn-lm-paged-kv/src/cache.rs:228-341 | Prepare and write together are appending rows to plain sequences |
| `Stores.WriteIndices` | crates/burn-lm-paged-kv/src/block_store.rs:209-223 | Lane-major destinations: position `starts[j] + r` of lane `j` through its own table |
| `Stores.AddressesAreDistinct` | crates/burn-lm-paged-kv/src/block_store.rs:205-223 | Distinct lane positions live in distinct cells, none of them in the sentinel block |
| `Stores.BlockStore.Write` | crates/burn-lm-paged-kv/src/block_store.rs:54-61 | Each destination holds its row and every other cell is as it was |
| `Pools.BlockPool.BeginRound` | crates/burn-lm-paged-kv/src/block_pool.rs:117-152 | All lanes or none: it succeeds exactly when the round's total extra blocks are free; then lengths advance, old tables are prefixes of the new, the starts are the old lengths; otherwise tables and lengths are unchanged, the free stack is the same multiset, and the shortfall reported is that of the first lane that cannot be served |
| `Pools.BlockPool.GrowTable` | crates/burn-lm-paged-kv/src/block_pool.rs:167-188 | A table grows to cover the new length or nothing moves; a covered length is a no-op |
| `Pools.BlockPool.Rollback` | crates/burn-lm-paged-kv/src/block_pool.rs:136-143 | Every lane grown in a failed round gives back exactly what it took; tables are as before |
| `Pools.BlockPool.FreeLane` | crates/burn-lm-paged-kv/src/block_pool.rs:156-161 | Exactly the lane's blocks return to the free stack |
| `Pools.BlockPool.UsableIsConstant` | crates/burn-lm-paged-kv/src/block_pool.rs:97-99 | Free and owned blocks together never change in number |
| `Pools.BlockPool.constructor` | crates/burn-lm-paged-kv/src/block_pool.rs:64-78 | A fresh pool frees each usable id once and no lane owns any; a count past 32 bits wraps first |
| `Pools.NoSharing` | crates/burn-lm-paged-kv/src/block_pool.rs:193-219 | No two table entries name the same block, and no table names the sentinel or a free block |
| `Pools.SameStack` | crates/burn-lm-paged-kv/src/block_pool.rs:136-143 | After a rollback the free stack holds the same blocks, in some order |
| `Pools.ShortfallMeaning` | crates/burn-lm-paged-kv/src/block_pool.rs:173-178 | Some lane is short exactly when the whole round's need exceeds the free count |
| `Pools.ShortfallIsFirst` | crates/burn-lm-paged-kv/src/block_pool.rs:173-178 | The shortage reported is that of the first lane that runs short, what was taken for the lanes before it counted in |
| `Utf8.DecodeChunks` | crates/burn-lm-inference/src/utf8.rs:35-84 | Every chunking of a byte string, pushed and then flushed, gives its one-shot lossy decoding, and a chunking of well-formed text gives the text itself |
| `Utf8.Utf8Buffer.Push` | crates/burn-lm-inference/src/utf8.rs:35-72 | What was said and what is held back are those of the streaming decoder over all bytes so far; `None` exactly when nothing new is said |
| `Utf8.Utf8Buffer.Finish` | crates/burn-lm-inference/src/utf8.rs:77-84 | The flush says exactly one U+FFFD when anything is held back and nothing otherwise, completes everything said before to the lossy decoding of everything pushed, and empties the buffer |
| `Utf8.Utf8Buffer.Drain` | crates/burn-lm-inference/src/utf8.rs:38-66 | The scan loop ends, with at most a beginning of one character left |
| `Utf8.HeldBackIsBeginning` | crates/burn-lm-inference/src/utf8.rs:15-20 | What is held back is at most 3 bytes and a proper beginning of some character's encoding |
| `Utf8.StreamedInTwo` | crates/burn-lm-inference/src/utf8.rs:32-34 | Later bytes never change what was said; the held-back bytes are all that must be remembered |
| `Utf8.StreamedThenFlushed` | crates/burn-lm-inference/src/utf8.rs:74-84 | Streaming and flushing is decoding in one go |
| `Utf8.TextRoundTrips` | crates/burn-lm-inference/src/utf8.rs:3-8 | Well-formed text comes through unchanged, with nothing held back |
| `Utf8.SubpartIsReplaced` | crates/burn-lm-inference/src/utf8.rs:52-57 | Well-formed text followed by a maximal subpart of a broken character decodes to the text, one U+FFFD, and the decoding of whatever follows |
| `Utf8.CutIsReplaced` | crates/burn-lm-inference/src/utf8.rs:74-84 | Well-formed text cut inside a character decodes to the text and one U+FFFD |
| `Utf8.TextIsKept` | crates/burn-lm-inference/src/utf8.rs:3-8 | Well-formed text in front of any bytes is decoded as itself |
| `Utf8.InputIsDecided` | crates/burn-lm-inference/src/utf8.rs:39-63 | Every input that is not empty starts with a character, or with a maximal subpart, or is the beginning of a character cut off: the three cases say what any bytes decode to |
| `Utf8.WholeIsEncoding` | crates/burn-lm-inference/src/utf8.rs:39-43 | A recognized character is the encoding of its scalar value (section 4 of RFC 3629) |
| `Utf8.EncodingIsWhole` | crates/burn-lm-inference/src/utf8.rs:39-43 | Every scalar value's encoding is recognized, whatever follows it |
| `Utf8.PartialIsBeginning` | crates/burn-lm-inference/src/utf8.rs:58-62 | A sequence reported incomplete can still become a character |
| `Utf8.BrokenIsMaximalSubpart` | crates/burn-lm-inference/src/utf8.rs:52-57 | A replaced stretch is a maximal subpart: one byte or a beginning of a character, and no longer stretch begins any character (section 3.9 of the Unicode Standard) |
| `Utf8.VerdictIsStreamed` | crates/burn-lm-inference/src/utf8.rs:39-63 | The validator's verdict (valid length, error length) in terms of the stream |
| `Backpressure.Channel.Run` | crates/burn-lm-inference/src/channels/batching/mod.rs:268-291 | Over any interleaving of any threads' atomic steps the counter is the permits held plus the submissions backing out, permits never exceed the bound, and at quiescence the counter is exactly the jobs still queued |
| `Backpressure.Channel.FetchAdd` | crates/burn-lm-inference/src/channels/batching/mod.rs:273-277 | A submission is going to be shed exactly when permits held and submissions backing out together reach the bound |
| `Backpressure.Channel.FetchSub` | crates/burn-lm-inference/src/channels/batching/mod.rs:275-276 | A shed submission takes its own count back and the counter never underflows |
| `Backpressure.Channel.SendFails` | crates/burn-lm-inference/src/channels/batching/mod.rs:278-289 | A failed send returns its permit |
| `Backpressure.Channel.JobLeaves` | crates/burn-lm-inference/src/channels/batching/mod.rs:100-111 | A job leaving the queue on any path returns its permit |
| `Backpressure.ShedWithRoom` | crates/burn-lm-inference/src/channels/batching/mod.rs:269-277 | The bound is approximate: a submission is shed although no permit is held |
| `OnlineSoftmax.OnePassIsTwoPass` | crates/burn-lm-paged-attn/src/oracle.rs:97-119 | The one-pass result is the two-pass softmax-weighted mean over the same keys, and the mass it divides by is at least 1 |
| `OnlineSoftmax.AbsorbSummarizes` | crates/burn-lm-paged-attn/src/oracle.rs:98-108 | One step of the rescaling recurrence keeps the running state the two-pass sums over the keys met so far |
| `OnlineSoftmax.ReferencePointIsInvisible` | crates/burn-lm-paged-attn/src/oracle.rs:98-103 | The choice of reference point does not show in the result |
| `OnlineSoftmax.MassAtTop` | crates/burn-lm-paged-attn/src/oracle.rs:116-117 | The top key contributes exactly 1, so the clamp on the divisor never binds |
| `OnlineSoftmax.Permuted` | crates/burn-lm-paged-attn/src/kernel.rs:293-300 | Sums over the same keys in another order are the same |
| `Oracle.Decode` | crates/burn-lm-paged-attn/src/oracle.rs:50-126 | Every lane, every head, every component is softmax attention over exactly the lane's positions, read through its block table |
| `Oracle.Update` | crates/burn-lm-paged-attn/src/oracle.rs:97-108 | One key updates one group member's state as the recurrence says and leaves the rest of the shared arrays alone |
| `Oracle.WalkLane` | crates/burn-lm-paged-attn/src/oracle.rs:84-111 | The nested walk over blocks and offsets has met every position of the lane once, for every member of the group |
| `Oracle.RowOfWalk` | crates/burn-lm-paged-attn/src/oracle.rs:86-89 | The row the walk addresses is the one its position is stored in, inside the pool |
| `Attention.WalkMeetsPositions` | crates/burn-lm-paged-attn/src/oracle.rs:84-88 | The gated walk meets positions `0, 1, ..` in order and ends exactly at the lane's length |
| `Kernel.Decode` | crates/burn-lm-paged-attn/src/kernel.rs:121-336 | Every output element of the launch is softmax attention over exactly its lane's positions, for every plane count and every geometry of units and vectors |
| `Kernel.KernelMatchesOracle` | crates/burn-lm-paged-attn/src/oracle.rs:1-14 | Kernel and oracle write the same output, element by element |
| `Kernel.AttendHead` | crates/burn-lm-paged-attn/src/kernel.rs:185-248 | All planes of a cube, merged, hold attention's sums over exactly the lane's positions; a plane that drew no blocks contributes nothing |
| `Kernel.PlaneWalk` | crates/burn-lm-paged-attn/src/kernel.rs:187-248 | A plane meets exactly its cyclic share of the lane's blocks |
| `Kernel.UpdateUnits` | crates/burn-lm-paged-attn/src/kernel.rs:229-245 | The units' cyclic slices together update every accumulator exactly once, padding included |
| `Kernel.WriteUnits` | crates/burn-lm-paged-attn/src/kernel.rs:259-265 | The guarded stores of all units write each element of the row and nothing else |
| `Kernel.StoresAreDistinct` | crates/burn-lm-paged-attn/src/kernel.rs:253-266 | No two stores of the launch, by any cube, group member, unit or step, hit the same slot |
| `Kernel.EverySlotIsStored` | crates/burn-lm-paged-attn/src/kernel.rs:253-266 | Every output slot is some unit's at some step it takes, whether or not the row divides evenly |
| `PlaneSplits.SharesPermute` | crates/burn-lm-paged-attn/src/kernel.rs:33-40 | However many planes there are, together they meet every key of every block exactly once |
| `PlaneSplits.BlocksAreTheLane` | crates/burn-lm-paged-attn/src/kernel.rs:185-196 | The gated block walk, flattened, is the keys of positions `0..len`, once each, in order |
| `PlaneSplits.Merge` | crates/burn-lm-paged-attn/src/kernel.rs:301-322 | The merged state summarizes all the planes' keys together |
| `PlaneDots.PlaneSumIsDot` | crates/burn-lm-paged-attn/src/kernel.rs:208-216 | The plane's reduction is the dot product of the whole row, whether or not the row divides evenly |
| `PlaneDots.PlaneDot` | crates/burn-lm-paged-attn/src/kernel.rs:208-216 | The vectorised masked reduction computes the row's dot product |
| `PlaneDots.InsideRow` | crates/burn-lm-paged-attn/src/kernel.rs:78-97 | Every masked read stays inside the row it belongs to |
| `PlaneDots.UnitsCoverRow` | crates/burn-lm-paged-attn/src/kernel.rs:11-16 | The cyclic deal visits each slot of a row once and the out-of-range ones add nothing |
| `Agreement.KernelAndReferenceAgree` | crates/burn-lm-paged-kv/src/attention.rs:100-128 | On every decode plan of the cache, for every lane, KV head, group member and component, what the kernel writes is what the reference computes from the gathered, neutralised, head-repeated, masked scratch at that query head, whatever never-written cells hold |
| `Agreement.PagedAttention` | crates/burn-lm-paged-kv/src/attention.rs:43-91 | A launch of the kernel on the cache's own stores gives the reference's result in every row and component, so the fall-through to the reference does not show |
| `Agreement.BufferIsLaidOut` | crates/burn-lm-paged-kv/src/block_store.rs:25-36 | A store as the device keeps it, in block, offset, KV head, component order |
| `Agreement.KeyIsRow` | crates/burn-lm-paged-attn/src/kernel.rs:187-216 | The kernel's key for a position is what its query head makes of the row the lane holds there |
| `Agreement.ColumnsAreRows` | crates/burn-lm-paged-kv/src/attention.rs:115-116 | After the KV heads are repeated, each query head scores and weighs its own group's head |
| `Reference.MaskedIsWalked` | crates/burn-lm-paged-kv/src/attention.rs:100-128 | Softmax under the plan's mask over a lane's neutralised scratch is softmax over the rows the length-gated walk reads |
| `Reference.WalkIsTheLane` | crates/burn-lm-paged-kv/src/cache.rs:296-319 | Walking a plan's block table reads exactly what the lane holds, every position once, in order |
| `Reference.PlanFitsKernel` | crates/burn-lm-paged-kv/src/cache.rs:296-319 | Every plan meets the kernel's demands on its block table and lengths |
| `Reference.MaskingIsDropping` | crates/burn-lm-paged-kv/src/attention.rs:107-117 | Masked columns might as well not be there |
| `Reference.QueryMaskIsLength` | crates/burn-lm-paged-kv/src/cache.rs:275-287 | A decode round's mask hides exactly the columns past each lane's length |
| `Reference.GroupReadsItsHead` | crates/burn-lm-paged-kv/src/attention.rs:165-173 | After head repetition every query head reads the KV head of its own group |

## Left out

- Tensor numerics, weights, RoPE, normalisation, quantization: the network is a function of the lane's
  token prefix, and the per-layer K and V stores are one store of opaque rows, which `Reference.Layer` unpacks
  into one layer's K and V vectors.
- Rounding, infinities and NaN: attention is over `real`, the finite sentinel is an explicit empty state, so
  that `0 * NaN` is not what neutralising is shown to prevent; what is shown is that the result does not
  depend on never-written cells.
- Random sampling: the sampler is a deterministic function of the logits, one token per row.
- `expect_rows` and the sampler-count branches (batching.rs:587-599, 653-662): the modelled decoder is proved
  to return one row per input row and the sampler one token per row, so they have nothing to catch.
- Machine widths: token ids, block ids and lengths are unbounded, except that the pool's `num_blocks as u32`
  wrap is modelled; the `i32` index casts of a plan are not. Request ids do not wrap.
- The unlimited KV budget (`usize::MAX` blocks) is a branch of `Growth.GrantKvGrowth`; whole runs use the
  paged decoder's own budget.
- Workers.Worker.Iterate: the model is asked for once for the evicted jobs, once for each queued job and once
  for the round, and each may be refused; the source asks again within those phases, where a model that
  was just borrowed is not taken to vanish. Cancel signals are read once by admission and once by the sweep.
- Running sequences are records held in one mutable sequence (`Batching.ActiveSet`), updated by position;
  aliasing between records is not modelled. The grant pass takes and returns the resume list.
- The kernel's units and planes run one after the other in loops; barriers and plane reductions are sums.
  The K and V reads shared by a query group are modelled once per member.
- Choice of plane count, plane width and vector width, device probing, fusion, the environment switch and
  launch counters: parameters or absent. A launch needs at least one unit and one plane.
- `BlockPool::new`, `PagedKvCache::new`: the source's assertions on sizes are preconditions.
- Decoders.LlamaDecoder.Prefill: an empty slice is excluded; the source underflows on it when it slices the last
  position (inference.rs:91), and the round never makes one.
- Kernel.Decode: the output scale is fixed at 1, the value of the real kernel; another is only ever injected
  through a process-wide setter (`crates/burn-lm-paged-attn/src/switch.rs:115-125`).
- Panics, unwinding and respawning: a worker's death is the end of its event channel, at any point. Jobs it
  had queued then are answered by their dropped channels, which are not part of this model.
- Logging, timing and statistics; of the reply only the finish reason and the token count are kept.
- Tokenization and detokenization are opaque functions; `StreamingDecoder`, HTTP, SSE, the registry,
  downloads, checkpoints and the command line are absent. Load, download and configuration commands are one
  command without effect.
- The live map of the emission thread is drained in an arbitrary order, as a hash map's is. Emitters never
  refuse text.
- Clearing state while idle is modelled on lanes only; positional-encoding state is absent.
