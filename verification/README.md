# Delivery and failure handling of the edit pipeline

A Dafny model of the service that classifies Wikipedia edits: a worker, a
retrier and a manually started sweeper share three append-only topics (raw,
retry, dlq), one committed offset per consumer group and partition, and one
Postgres table. The service promises that a message may be delivered twice but is
never lost, that retries are bounded and spaced out, that a late failure never
downgrades a classified row, and that a sweep ends. These promises rest on the
order of small steps spread over several files, with a crash possible between
any two; the proofs here cover every run, every interleaving and every crash.

`dafny verify dfyconfig.toml` checks the whole project.

## How the model is laid out

| file | what it holds |
|---|---|
| `Model.dfy` | edits, envelopes, records, topics, settings |
| `Failures.dfy` | envelope building, retry schedule, the three consumers' decode checks, circuit breaker |
| `EditsTable.dfy` | the two upserts, the outcome of any sequence of writes, the reconnect wrapper |
| `Classifier.dfy` | the bounded call loop and the two-pass decision over a stream of replies |
| `Retrier.dfy` | the chunked delay loop and the time one pass may take |
| `Pipeline.dfy` | the whole system as a transition relation: one event per micro-step, crashes included |
| `Invariant.dfy`, `Preservation.dfy` | what holds in every reachable state, and why each step keeps it |
| `NoLoss.dfy` | no message lost, no failed row orphaned, every row the outcome of its writes |
| `Provenance.dfy` | ancestry, attempt counts, one-way flow and pacing of envelopes |
| `WorkBound.dfy` | the exact account of classify passes and their bound; termination of draining |
| `Lifetimes.dfy` | the breaker's count over one process lifetime |
| `Processes.dfy` | worker and retrier as code that carries out those events |
| `Sweeper.dfy`, `SweepSteps.dfy` | the drain loop as code, its ledger, and its sweeps as runs of the transition relation |
| `Stats.dfy` | the statistics fold and what its figures mean |

There are two layers. `Pipeline.Step` gives the state after an event, or nothing
when the event cannot happen; a run is a list of events and `Exec` its last state.
Everything the outside decides is part of the event: the model's answer, how a
statement ends (done, refused, connection lost before or after it took effect),
where a publish lands, and when a process dies. The second layer is code: classes
whose fields are updated by methods and loops. `Processes.Service` keeps, as ghost
fields, the run of the transition relation its steps amount to, and
`SweepSteps` shows the same of whole sweeps, so the theorems about runs speak about
that code.

## Assumptions

- One live process per consumer group; topics never lose or reorder records.
- A successful publish appends one record. A publish whose acknowledgement is
  lost is an append followed by a crash.
- The retry and dlq topics are written by this service only. The raw topic may
  hold anything.
- The clock never goes back; the settings are constant; the backoff settings are
  not negative, and the number of retry passes (M below) is a natural number.
- Confidence is a real number and a label a string or absent. The `attempts` of an
  envelope is an ordinary integer. An edit's id is the text its row is keyed by.
- The time a route is chosen and the time its envelope is built are separate clock
  readings, as in the code.

## Where the documents and the code differ

The model follows the code.

- The runbook says offsets are never committed when the circuit breaker trips
  (`DESIGN.md:84-90`). The code commits the failing message first and trips after
  (`service/app/routing.py:96-104`); `BreakerKillsAtItsLimit` proves that order.
- The retrier's header says a message goes to the DLQ once its attempts exceed
  1 + M (`service/app/retrier.py:16-18`). The code sends it when they reach 1 + M
  (`service/app/routing.py:35`), so an exhausted envelope carries exactly 1 + M.

One natural statement is false of the code: with a potential over uncommitted
records alone, passes plus potential do not stay within (1 + M) per message and
crash while a pass is open, that is, started and neither committed nor crashed
since. `MidPassExceedsAllowance` gives the run. `PassesBalance` is the exact
account: passes, potential and the allowance a run has given up (`Slack`: messages
that ended early or needed no pass, crashes that cut less than they were allowed)
add up to the allowance plus what the open passes are charged with. So the
statement holds of a run if and only if its open passes are charged with no more
than the run has given up (`BoundHoldsExactlyWhenSlackCovers`); with no open pass
the charge is nothing and it always holds (`PassesAreBounded`).

## Model

| member | source | states |
|---|---|---|
| `NoLoss.NoMessageIsLost` | service/app/failures.py:9-12 | In every state of every run, crashes anywhere, a raw record below the worker's committed offset is classified, or sits (as edit, as parked bytes, or inside a parked envelope) in an uncommitted retry record, an uncommitted DLQ record or a skipped DLQ record |
| `NoLoss.NoOrphanFailures` | service/app/routing.py:75-97 | The id of a failed row is always still carried by an uncommitted raw record or by a findable retry or DLQ record |
| `NoLoss.RowsWereWritten` | service/app/db.py:67-111 | The table of any reached state is what its writes, in the order they took effect, make of an empty one |
| `NoLoss.ReachableRows` | service/app/db.py:67-111 | So every reachable row is the outcome `TableOutcome` prescribes for its writes |
| `NoLoss.ReachableRowShape` | service/app/db.py:87-111 | In every reachable table classified rows have a valid label, a confidence in [0,1] and a model, and failed rows have none of the three |
| `Preservation.StepKeepsInv` | service/app/routing.py:44-129 | Every step of every process, a crash at any point included, keeps the system invariant and takes nothing back: no record, row or classification disappears |
| `Preservation.ReachableInv` | service/app/routing.py:10-13 | The invariant holds in every reachable state |
| `WorkBound.BoundHoldsExactlyWhenSlackCovers` | service/app/routing.py:27-41 | For every run, passes plus potential stay within (1 + M) per message and crash if and only if the charge of the open passes is at most the allowance given up |
| `WorkBound.PassesBalance` | service/app/routing.py:27-41 | The exact account of any run: passes + potential + allowance given up = (1 + M) per message and crash + what open passes are charged with |
| `WorkBound.PassesAreBounded` | service/app/routing.py:27-41 | Over any run worker and retrier together start at most (1 + M) passes per message and per crash; when no pass is open what is left of that allowance covers all uncommitted work |
| `WorkBound.OpenMeansStartedAndNotClosed` | service/app/worker.py:94-115 | A pass is open exactly when the events hold a start of it with no commit and no crash of its process since |
| `WorkBound.MidPassExceedsAllowance` | service/app/worker.py:94-115 | The concrete run with an open pass in which passes plus potential exceed the allowance |
| `WorkBound.DrainingTerminates` | service/app/retrier.py:134-155 | Without arrivals and crashes worker and retrier can take only a bounded number of further steps from any reachable state, whatever the sweeper does |
| `WorkBound.ActPays` | service/app/routing.py:81-97 | The account of each handler step: the net potential falls by exactly the pass started and the allowance given up, and a step that costs nothing brings the handler closer to rest |
| `Provenance.TrailEndsAtRaw` | service/app/failures.py:71-75 | Following the `kafka` member back visits strictly earlier records and ends at a raw record |
| `Provenance.TrailTellsTheStory` | service/app/failures.py:45-83 | Along a chain that is not malformed the edit is the raw record's, `first_failed_at` never changes, and `attempts` is one plus the transient retrier hops and the sweeper hops |
| `Provenance.EveryEnvelopeHasATrail` | service/app/routing.py:86-97 | In every reachable state each envelope has such a chain, a malformed one holds the very bytes it reports, and every other one has a row for its edit |
| `Provenance.WindowSpansChain` | service/app/failures.py:5-8 | The failure window opens with the chain's first envelope, widens from hop to hop and never ends in the future |
| `Provenance.FlowsOneWay` | service/app/sweeper.py:121-138 | Malformed envelopes are never republished as edits, and nothing flows from the DLQ back to the retry topic |
| `Provenance.EnvelopesAreConsumable` | service/app/retrier.py:92-113 | Retry envelopes carry 1 to M attempts and pass the retrier's checks; exhausted ones carry exactly M + 1; the sweeper classifies a DLQ envelope exactly when it carries an edit |
| `Provenance.RetrierNeverParksOnDecode` | service/app/retrier.py:92-113 | In a closed run polling the retry topic always yields a job |
| `Provenance.RetrierParksOnlyRefusedData` | service/app/retrier.py:108-125 | Only a write the table refuses can make the retrier park a message |
| `Provenance.ChainIsPaced` | service/app/failures.py:86-95 | The `not_before` of a retry record is at least the first routing time plus all delays of its chain |
| `Provenance.NthPassIsPaced` | service/app/retrier.py:131 | The n-th retrier pass over a message starts no earlier than the first n delays after the moment, in that same run, at which the worker's pass over the raw record at the root of the message's own chain chose its route |
| `Provenance.WaitIsCapped` | service/app/retrier.py:3-11 | A message is due no later than its last failure plus that failure's own delay, so the remaining wait never exceeds that delay, nor the cap |
| `Lifetimes.BreakerKillsAtItsLimit` | service/app/routing.py:96-105 | A process dies of its breaker exactly when the transient failures since its last success or parse failure reach the threshold, never past it, with the failing record's envelope published and its offset committed |
| `Lifetimes.AliveBelowLimit` | service/app/failures.py:145-158 | Outside its bookkeeping a live process has a count equal to that streak and below the threshold |
| `Failures.StreakAfter` | service/app/failures.py:152-158 | A success and a parse failure bring the breaker's streak to 0, a park and a skip leave it, a transient failure adds one |
| `Failures.StreakCountsSinceReset` | service/app/failures.py:145-158 | The breaker's count is the number of transient failures after the last success or parse failure |
| `Failures.CircuitBreaker.constructor` | service/app/failures.py:148-150 | A new breaker has seen nothing |
| `Failures.CircuitBreaker.RecordFailure` | service/app/failures.py:152-155 | Trips exactly when the streak of its history reaches the threshold |
| `Failures.CircuitBreaker.RecordSuccess` | service/app/failures.py:157-158 | Ends the streak |
| `Failures.DelayDoublesUntilCapped` | service/app/failures.py:86-91 | Each delay is the double of the one before, capped, and never shorter |
| `Failures.DelayMonotone` | service/app/failures.py:86-95 | Later attempts wait at least as long |
| `Failures.ScheduleIsExponential` | service/app/routing.py:35-41 | The first M failed passes go to the retry topic, the n-th due base * 2^(n-1) later and never later than the cap; any further one goes to the DLQ as exhausted |
| `Failures.RawIsAccepted` | service/app/worker.py:60-69 | Exactly the objects with an id are handled, each as a first attempt |
| `Failures.RetryIsAccepted` | service/app/retrier.py:92-113 | Exactly the envelopes of schema 1 with an edit, a readable attempt count and a readable `not_before` are handled, and what is read from them |
| `Failures.DlqIsAccepted` | service/app/sweeper.py:101-126 | Exactly the envelopes of schema 1 with an edit and a readable attempt count, malformed reports apart, are classified; all others are skipped |
| `Failures.ParkKeepsTheEvidence` | service/app/failures.py:134-140 | A parked message's envelope holds its original payload and coordinates, the error, and neither an edit nor a retry time |
| `EditsTable.TableOutcome` | service/app/db.py:67-111 | After any sequence of success and failure upserts a row is classified if and only if a success occurred; label, confidence, reasoning, model and time are the last success's own, else reason, error and time are the last failure's; title, editor, comment, byte delta and event time are the first write's |
| `EditsTable.RepeatChangesOnlyTime` | service/app/db.py:67-111 | A write repeated at once changes only `processed_at` |
| `EditsTable.RepeatInvisible` | service/app/db.py:193-202 | A repetition anywhere in a sequence of writes is invisible at its end, but for `processed_at` |
| `EditsTable.Edits.FetchEditStatus` | service/app/db.py:180-183 | The row's status, or none when there is no row |
| `EditsTable.Edits.UpsertEdit` | service/app/db.py:151-163 | Only the edit's row changes: it holds this verdict column by column, and its description is the old one or, in a new row, the edit's |
| `EditsTable.Edits.UpsertFailedEdit` | service/app/db.py:166-177 | A classified row is left alone; otherwise only the edit's row changes and records this failure column by column |
| `EditsTable.RepeatedWrite` | service/app/db.py:193-202 | After a write and its repetition on a new connection the table is the old one or the old one with the write made once, but for `processed_at`; the latter if it went through |
| `EditsTable.Edits.WriteWithReconnect` | service/app/db.py:193-202 | The write is repeated once exactly when its connection was lost and replaced; it reports success only if the write is in the table |
| `Classifier.CallModel` | service/app/classifier.py:114-157 | Result, calls and backoff are those the reply stream prescribes; a response is handed back as received |
| `Classifier.DecisiveReplyIsJudged` | service/app/classifier.py:114-157 | When the reply at i is the first within the budget that is not transient it is acted on, after i + 1 calls and base * (2^i - 1) of backoff |
| `Classifier.TransientRepliesExhaust` | service/app/classifier.py:155-157 | When all replies within the budget are transient: K calls, base * (2^(K-1) - 1) of backoff, unavailable |
| `Classifier.ReplyTaxonomy` | service/app/classifier.py:133-154 | Which replies are worth another try (rate limits, lost connections, 408, 409, 500 and up, errors without a status), which are the configuration's fault, a bug, or unusable output |
| `Classifier.Attempt` | service/app/classifier.py:192-205 | The judgement, calls and backoff the reply stream prescribes |
| `Classifier.Classify` | service/app/classifier.py:208-236 | Case by case: a sure first verdict stands, an unsure one gives way to a usable second and survives an unusable or exhausted one, a misconfiguration is never swallowed, and each failure has its kind; calls and backoff are exact and within twice one attempt's; a verdict is the normalized form of a reply that was received |
| `Classifier.Normalize` | service/app/classifier.py:169-189 | Only valid verdicts come out |
| `Classifier.NormalizeAccepts` | service/app/classifier.py:169-189 | Exactly the objects with a known label and a numeric or absent confidence are accepted, with their own label and reasoning; an absent confidence is 0 |
| `Classifier.NormalizeClampsToNearest` | service/app/classifier.py:183-187 | A confidence is moved to the nearest value in [0,1], so one in range is kept |
| `Retrier.WaitUntil` | service/app/retrier.py:71-87 | Ends at or after the target, in sleeps of at most five seconds that together ask for no more than the time that was left; no usable target is no wait |
| `Retrier.TimedPass` | service/app/retrier.py:128-141 | A pass lasts exactly its wait, its requests, its backoff and what that overran; the wait ends no earlier than `not_before`; and all of it is at most the cap, two full rounds of requests and backoff, and whatever its sleeps overran |
| `Retrier.ClassifyInBudget` | service/app/worker.py:40-43 | Requests and backoff of one pass fit the classify budget |
| `Retrier.SettingsFitPollInterval` | service/app/config.py:33-45 | With any settings no larger than the defaults cap plus budget are at most 486 seconds, inside the poll interval of 600 |
| `Processes.Service.HandleMessage` | service/app/worker.py:52-79 | A message is committed, by one offset, exactly when it ends in an outcome, with that outcome durable by then; at most one envelope is published and one row written; the process survives unless it crashed uncommitted or its breaker tripped; the events added lead from the state before to the state after, and nothing there before is gone |
| `Processes.MessageWritesOnce` | service/app/db.py:193-202 | The table after a message is the old one or, but for `processed_at`, the old one with the pass's one write; the latter, with the reason that fits the outcome, whenever the message ends in a verdict or a routed failure |
| `Processes.RoutingTable` | service/app/worker.py:9-20 | The routing table class by class, for both consumers: undecodable, refused, unreadable row, already classified, misconfigured, succeeded, transient and parse failure each have their outcome and leave their row as promised; a classified row means no pass and no write |
| `Processes.EnvelopeTells` | service/app/routing.py:81-95 | A routed failure's envelope member by member, its topic, its attempt count and its retry time |
| `Processes.Service.Dispatch` | service/app/retrier.py:90-125 | Decode, then park or handle: outcome, table, envelope count and commit are those the message, the row and the pass prescribe |
| `Processes.Service.HandleEdit` | service/app/worker.py:82-124 | Outcome and table of an accepted edit; none is a crash that commits nothing |
| `Processes.Service.CheckRow` | service/app/worker.py:83-92 | An edit gets its pass exactly when its row can be read and is not classified; otherwise it is skipped and committed, parked, or left uncommitted |
| `Processes.Service.EndWithoutPass` | service/app/worker.py:88-92 | Such an edit is parked, skipped and committed, or left uncommitted by a crash |
| `Processes.Service.RunPass` | service/app/retrier.py:134-159 | The ending that the reply stream and the fate of the write prescribe |
| `Processes.Service.ActOn` | service/app/retrier.py:134-159 | The ending that a pass's result and the fate of the write prescribe |
| `Processes.Service.HandleVerdict` | service/app/worker.py:114-116 | A verdict is written, then committed; refused data is parked |
| `Processes.Service.HandleFailure` | service/app/routing.py:44-129 | Failed row, then envelope, then commit; refused data is parked, a lost database crashes uncommitted |
| `Processes.Service.Prepare` | service/app/routing.py:81-95 | Topic and envelope are those of the route chosen for this failure, naming the message in flight |
| `Processes.Service.SendOn` | service/app/routing.py:81-97 | The failure's envelope is appended to the topic its route names, and nothing else is; then the one offset is committed |
| `Processes.Service.Deliver` | service/app/failures.py:141-142 | The envelope is appended to its topic at the partition it lands in, the other failure topic is untouched, and the offset is committed after |
| `Processes.Service.Send` | service/app/failures.py:112-123 | Exactly this envelope is appended to exactly this topic and partition |
| `Processes.Service.ParkMalformed` | service/app/failures.py:126-142 | The DLQ gains one record, the malformed envelope with the message's original bytes, and then the offset is committed |
| `Processes.Service.SaveVerdict` | service/app/worker.py:114 | The success write, repeated once after a lost connection, as steps of the run |
| `Processes.Service.SaveFailure` | service/app/routing.py:75-80 | The failure write, repeated once after a lost connection, as steps of the run |
| `Processes.Service.Bookkeep` | service/app/routing.py:98-105 | The count goes to 0 on a success or a parse failure, stays on a park or a skip, grows by one on a transient failure, and the process dies exactly when that reaches the threshold |
| `Processes.Service.Conclude` | service/app/routing.py:97-105 | What the outcome says is durable before and after the bookkeeping |
| `Sweeper.SweepRun.Sweep` | service/app/sweeper.py:87-196 | The loop ends although every record may be requeued and others keep appending and writing. Turn by turn its steps are what others did and then one partition paused or one record taken with that turn's answers; it ends with a timeout exactly when its last turn is the first to time out, at the limit or aborted exactly when its last step says so, and otherwise drained, with the whole snapshot committed; ledger, counters and limit hold |
| `Sweeper.DispositionTable` | service/app/sweeper.py:101-183 | What becomes of a record, class by class: commit, counter, appended envelope and row |
| `Sweeper.SweepRun.constructor` | service/app/sweeper.py:77-88 | The snapshot of end offsets, with 0 for an unlisted partition, and zero counters |
| `Sweeper.SweepRun.TakeOne` | service/app/sweeper.py:90-99 | Every delivered record shortens what is left: it is handled, or its partition paused |
| `Sweeper.SweepRun.HandleRecord` | service/app/sweeper.py:101-183 | The run becomes what handling that record makes of it; nothing is committed when the failure is not the record's |
| `Sweeper.SweepRun.Finish` | service/app/sweeper.py:54-61 | The record's own offset is committed and one counter incremented |
| `Sweeper.SweepRun.Pause` | service/app/sweeper.py:92-96 | The read position passes the snapshot, the commit does not |
| `Sweeper.HandledRunOk` | service/app/sweeper.py:101-183 | Handling a record keeps the ledger: per partition the newly committed records are the contiguous run handled so far, each with the disposition its turn asks for |
| `Sweeper.RequeueIsReadable` | service/app/sweeper.py:147-165 | What a sweep requeues the next sweep reads as the same edit and first failure with one attempt more; its reason, error and time are those of the latest failure |
| `Sweeper.CommitsStayBelowSnapshot` | service/app/sweeper.py:54-56 | Whatever a run commits lies below its snapshot |
| `Sweeper.UnresolvedDropsByResolved` | service/app/sweeper.py:59-61 | Reclassified, requeued and skipped add up to the records handled; what the DLQ still owes drops by exactly reclassified plus skipped, arrivals aside |
| `Sweeper.NeverHandlesItsOwnRequeues` | service/app/sweeper.py:10-16 | A run never handles an envelope it requeued itself |
| `SweepSteps.TurnIsARun` | service/app/sweeper.py:101-183 | A turn of the loop over a record is a run of the transition relation to the state the loop's variables describe |
| `SweepSteps.SweepIsARun` | service/app/sweeper.py:77-183 | From a reachable state a sweep begins with its snapshot, and loop and system go on together in any order, the loop pausing and handling, the others appending and writing: the system stays in reachable states, the loop's variables mirror it, and the ledger holds |
| `SweepSteps.SweepEndsInARun` | service/app/sweeper.py:97-183 | A step that ends the sweep leads to a reachable state too, with nothing committed by it |
| `SweepSteps.NothingIsStuck` | service/app/sweeper.py:90-183 | Whatever the loop or the rest of the system can do next can be done by both together |
| `SweepSteps.UnfoldIsReplayed` | service/app/sweeper.py:90-183 | The loop's side of such a sweep is a replay of loop steps, as `SweepRun.Sweep` says its own execution is |
| `Stats.SummarizeStats` | service/app/api.py:94-109 | Total, per-label and per-status figures are the tallies of the groups; keys that do not occur are absent |
| `Stats.TallyCounts` | service/app/api.py:89-91 | Folding distinct groups counts exactly the rows they cover |
| `Stats.FiguresAreDirectCounts` | service/app/api.py:89-109 | In whatever order the groups come, each figure is the direct count over the table |
| `Stats.StatisticsAgree` | service/app/api.py:94-109 | The per-label figures sum to the classified count, and total is classified plus failed |
| `Stats.ReachableStatisticsAgree` | service/app/api.py:89-109 | This holds of every reachable table |

## Left out

- Kafka, Postgres, SQLAlchemy and the Anthropic client: replaced by topics, a table and a stream of replies; rebalancing, partition hashing and connection pools have no counterpart.
- JSON, base64 and ISO time text: payloads are datatypes, time is an integer (a real number in `Retrier.dfy`). A raw edit that itself has an `edit` member, or an envelope posted to the raw topic by a stranger with an id of its own, is just an unreadable payload.
- Edit members that only feed prompts, the prompts themselves and `fence` (`service/app/classifier.py:78-111`): string building with easy claims only.
- `connect`, `make_consumer` and `normalize_dsn`: counted start-up loops and text, easy members only.
- Cursor pagination, HTTP validation, the terminal client, logging, signal handlers and argument parsing. A shutdown is a crash step.
- The Connect pipeline (`connect/pipeline.yaml`): its meaning is the interpreter's.
- Eventual success: nothing here says the model ever answers, only what holds whether it does or not.
- The `REAL` column's rounding of a confidence.
- Processes.Service.Wait: the clock reads the target in one step; the chunked loop is `Retrier.WaitUntil`, in seconds rather than ticks.
- Processes.Service.HandleMessage: describes one process between two messages with the others still; interleaving is the business of the transition relation.
- Processes.Service.CommitMessage: commits the message in flight only, which is what the group's position amounts to when messages are taken one at a time.
- Processes.Service.SaveVerdict: the repetition of a write reads the clock of the first attempt; in the transition relation any time may pass between the two.
- SweepSteps.TurnIsARun: the verdict is assumed valid, as `Classifier.Classify` proves, and others act between the turns of the loop; in the transition relation they may also act within one. Reading past the snapshot and pausing change nothing the system state holds and have no event.
- Sweeper.SweepRun.Sweep: the partition a record comes from is any with one to deliver; the order in which the consumer visits partitions is not modelled.
