# Nexus Event Gateway: verified model

The gateway takes plan events from Kafka, applies each order's events once and in
sequence in Postgres, buffers those that come early, and delivers a notification of each
applied event to a webhook. This project models that path in Dafny, with the agent that
publishes the plans and the sink that checks the deliveries, and proves what holds over
every run of it.

The layers, from the bottom up:

- **Decisions and one order** (`Models`, `Sequencing`, `Ledger`). A ledger is what the
  database holds about one order: its row, its share of the reorder buffer, its outbox
  entries in insertion order. `Confluence`, `Replay`, `Accounting` and `Independence` state
  what ledgers do over whole histories.
- **The store** (`Tables`, `Transactions`, `Repositories`). The class `Repository` runs each
  transaction statement by statement over the tables; a statement may fail anywhere, and
  then the tables are what they were. Each method is proved equal to a function on the
  tables, and that function to the ledger's step for its order and to nothing for all the
  other orders.
- **Concurrency** (`Serial`, `SerialOrder`, `SerialRuns`, `SerialHistory`). The same
  transactions cut into statements, run by any number of workers and sweepers in any
  interleaving. `Feed` connects the outbox they write to the dispatchers below.
- **The consumer** (`History`, `Consumers`, `Guarantees`). Partitions, batches, retries,
  DLQ acknowledgements, offset commits, shutdowns and restarts.
- **The dispatcher** (`Backoff`, `Outbox`, `Dispatchers`, `Schedule`, `Dispatch`, `Leases`,
  `LeaseBound`). One dispatcher as a class, and several of them as a state machine with a
  clock, leases, crashes, lost bookkeeping and a receiver that answers anything.
- **The ends** (`Planner`, `EndToEnd`, `Sinks`, `DeliveryOrder`, `Simulator`). What the agent
  publishes, what the outcome check expects, what the sink counts of the deliveries, and the
  in-memory simulator.

Faults, answers, clocks and random ids are arguments of the methods or actions of the
machines: a property that holds for every argument holds for every behaviour of the
environment.

Where the code and its documentation disagree, the model follows the code:

- A lease is documented to keep two instances from delivering the same notification at
  the same time (README.md:102 of the repository). A claimed batch queues behind the worker slots, so this
  holds exactly when ceil(BatchSize / Workers) of the longest deliveries fit into the
  lease, and with the default numbers they do not: `LeaseBound.ExclusiveIffFits` and
  `LeaseBound.DefaultsOverlap`.
- A replayed record is said to be harmless (server/internal/consumer/consumer.go:90-93).
  An ABORT_PLAN that was ignored because its order had completed is not, if a later event
  of the plan reopened the order before the crash: `Replay.ReplayHarmlessIff` gives the exact
  condition, and `Replay.ReplayCanAbortAReopenedOrder` a log that violates it. Plans that
  end with OrderCompleted, as the agent's do, meet it.
- A dead entry is documented never to be retried (server/internal/db/outbox.go:78-80). That
  holds in every run in which outcomes are recorded within the lease
  (`Leases.DeadStaysDead`). A mark that comes later clears `dead_at`. An outcome can be
  recorded only until `bookkeepingTimeout` after the start of its delivery
  (server/internal/dispatcher/dispatcher.go:29, 216), so at the dispatcher's own pace the
  promise holds exactly when (ceil(BatchSize / Workers) - 1) of the longest deliveries, and
  the shorter of one more and that timeout, fit into the lease, or nothing is retried
  (`LeaseBound.SafeIffMarksFit`). The default numbers do not meet that
  (`LeaseBound.DefaultsRevive`); there are numbers that do although deliveries outlast their
  leases (`LeaseBound.SlowButSafe`). If a mark could come at any time, only the single attempt
  would be safe (`LeaseBound.LateMarkRevives`). The order of settled entries depends on the
  same conditions.
- A request that times out is documented to be retried with backoff, and dead-lettered after
  the last attempt (README.md:91-93 of the repository). The bookkeeping deadline runs from
  before the request, so a timeout longer than it, as the default one, is never recorded: the
  entry is sent again when its lease expires, with no attempt counted, forever.
  `LeaseBound.TimeoutsCountIff` gives the exact condition.
- The agent does not check quantities and unit prices before it builds OrderCreated, whose
  payload does: such a plan raises and publishes nothing (`Planner.SomePlansRaise`).

## Model

| member | source | states |
|---|---|---|
| Models.StatusOf | server/pkg/models/event.go:54-71 | OrderCreated means pending, InventoryValidated validated, PaymentProcessed paid, OrderShipped shipped, OrderCompleted completed, each only that, and no sequenced event means aborted |
| Models.ValidateMeans | server/pkg/models/event.go:31-51 | an envelope is accepted iff it has a plan, a UUID and, unless it is an abort, a known type and a seq of at least 1; each error is reported iff its check is the first to fail |
| Ledger.DecisionMeans | server/internal/sequencing/sequencing.go:37-58 | in every reachable state, what `Decide` reads off three columns is the truth about the order: PLAN_MISMATCH iff another plan owns it, DISCARD iff its own plan was aborted, else DUPLICATE iff this seq was applied, APPLY iff it was not but its predecessor was (or it is the first), BUFFER iff neither |
| Ledger.AbortDecisionMeans | server/internal/sequencing/sequencing.go:61-76 | PLAN_MISMATCH iff another plan owns the order, DUPLICATE iff it is aborted already; else an abort is ignored iff the last applied event completed the order, applies iff it did not, leaves a tombstone iff nothing was applied |
| Ledger.DrainKeeps | server/internal/db/postgres.go:263-288 | whatever is buffered, the drain ends with the next event missing, the invariant restored, and takes exactly the events the row moved past, each as buffered |
| Ledger.StepKeepsGood | server/internal/db/postgres.go:72-101 | a delivery keeps the ledger invariant: seqs 1..last_seq of the owning plan in insertion order, status and total of the last ones, nothing buffered below last_seq+2 |
| Ledger.AbortKeepsGood | server/internal/db/postgres.go:106-147 | an abort keeps the ledger invariant: its entry is the last one, and a tombstone has none |
| Ledger.RunKeepsGood | server/internal/db/postgres.go:72-191 | the ledger invariant holds after every history of deliveries, aborts and sweeps |
| Ledger.LastTotalMeans | server/internal/db/postgres.go:239-248 | the total the invariant speaks of is the amount of the last event that carried one |
| Ledger.AbortIsFinal | server/internal/db/postgres.go:103-147 | after an abort that took effect, no continuation changes the row - the aborted one, otherwise as it was, or a tombstone of the abort's user - or the outbox, or buffers anything for the plan; downstream was notified iff the order had started |
| Confluence.DrainToTheGap | server/internal/db/postgres.go:263-288 | a drain turns any applied prefix into the longest one |
| Confluence.DeliverOne | server/internal/db/postgres.go:72-101 | one delivery turns the longest prefix of what came before into the longest prefix of what has come now |
| Confluence.AnyOrderConverges | server/internal/db/postgres.go:72-101 | after any finite sequence of deliveries of a plan, in any order and with any repeats: last_seq is the largest k with 1..k delivered, the buffer is the rest, the outbox is events 1..k, status and total follow from them |
| Confluence.PrefixIsUnique | server/internal/db/postgres.go:68-101 | that description determines row, buffer and outbox completely |
| Confluence.OrderAndRepeatsDoNotMatter | server/internal/db/postgres.go:68-101 | two delivery sequences of the same events end in the same state |
| Replay.ReplayIsAbsorbed | server/internal/consumer/consumer.go:90-93 | handling a record twice in a row is handling it once, for every record and every reachable state |
| Replay.StaysAbsorbedUnlessReopened | server/internal/sequencing/sequencing.go:37-76 | an absorbed record stays absorbed under the next record iff that one does not reopen a completed order it tried to abort |
| Replay.PassAbsorbsAll | server/internal/consumer/consumer.go:90-93 | after one pass, every record below is absorbed |
| Replay.HighMeans | server/internal/consumer/consumer.go:149-159 | the point reached is one past the highest record processed |
| Replay.CrashesReachTheCleanPass | server/internal/consumer/consumer.go:90-131 | processing that may go back but never skips ahead reaches the state of one clean pass up to the highest record |
| Replay.ReplayHarmlessIff | server/internal/consumer/consumer.go:90-93 | every crash pattern reaches the state of a clean pass, iff on the clean pass no order with an ignored abort is later seen unfinished |
| Replay.CompletionLastMakesReplayHarmless | server/internal/sequencing/sequencing.go:47-57 | it does for every log in which no plan has a seq beyond its OrderCompleted |
| Replay.ReplayCanAbortAReopenedOrder | server/internal/sequencing/sequencing.go:68-75 | and does not for every log: completed, ignored abort, reopened, crash |
| Accounting.LeavesTheBufferOnlyAccounted | server/internal/db/postgres.go:136-191 | a buffered event leaves the buffer only by being applied as it was, by its plan's abort, or after the sink accepted it, even when a sweep fails midway |
| Accounting.NothingIsLost | server/internal/consumer/consumer.go:235-283 | over every history, each settled event is applied, buffered, dropped by its plan's abort, or in the DLQ, itself or its twin |
| Independence.OnlyItsRecordsMatter | server/internal/db/postgres.go:72-147 | a run over a mixed log leaves in the tables, of each order, exactly the row, buffer and outbox entries that a run over its own records leaves, whatever positions and times the two runs get |
| Independence.HandledLogIsPass | server/internal/db/postgres.go:72-147 | what a log leaves in the tables is, order by order, the ledger's pass over it |
| Independence.DifferentOrdersCommute | server/internal/db/postgres.go:72-147 | records of different orders commute, up to outbox positions |
| Transactions.ViewOfDelivered | server/internal/db/postgres.go:72-101 | what `ApplyEvent` writes to the tables is the ledger's step for its order and nothing for any other |
| Transactions.ViewOfAborted | server/internal/db/postgres.go:106-147 | likewise for `AbortPlan` |
| Transactions.DeliveryReport | server/internal/db/postgres.go:79-95 | the reported LastSeq, seq + drained, is the stored one; the outbox only grows, by undelivered rows at consecutive positions |
| Transactions.AbortReport | server/internal/db/postgres.go:106-147 | an abort that applies adds one undelivered entry, at the position drawn and due at once, any other none; it takes only its own plan's rows from the buffer |
| Repositories.Repository.LockOrder | server/internal/db/postgres.go:212-230 | reads the order's state; what the lock excludes is in `Serial` |
| Repositories.Repository.WriteEvent | server/internal/db/postgres.go:232-259 | inserts or updates the row and appends the notification |
| Repositories.Repository.InsertOutbox | server/internal/db/postgres.go:307-320 | appends an undelivered row at the next position |
| Repositories.Repository.DrainPending | server/internal/db/postgres.go:263-288 | the loop over `next` and `drained` is the drain of the specification, and counts the rows it appended |
| Repositories.Repository.BufferEvent | server/internal/db/postgres.go:290-305 | buffers the event unless one with its key is buffered |
| Repositories.Repository.ApplyEvent | server/internal/db/postgres.go:72-101 | one delivery: its order's ledger takes the step, no other order changes, new entries are undelivered at the next positions and due at once, positions within an order keep rising, a failure at any statement leaves no trace, and the result is what was decided and stored |
| Repositories.Repository.AbortPlan | server/internal/db/postgres.go:106-147 | one abort, likewise: the outbox grows by exactly its entry, at the next position, iff it applies |
| Repositories.Repository.ExpirePending | server/internal/db/postgres.go:152-191 | the rows leave the buffer together after the sink took each of them; otherwise they all stay |
| Repositories.Repository.ClaimOutbox | server/internal/db/outbox.go:30-63 | leases the oldest ready heads that nobody has locked, up to the limit, and nothing else |
| Outbox.ClaimMeans | server/internal/db/outbox.go:30-63 | a claim takes only entries that may be claimed and are not locked, at most one per aggregate, each as its row has it, and leaves one out only if it took `limit` older ones |
| Outbox.EligibleMeans | server/internal/db/outbox.go:33-45 | an entry may be claimed iff it is the first live one of its aggregate, due, and under no running lease |
| Repositories.Repository.MarkOutboxDelivered | server/internal/db/outbox.go:66-76 | records a delivery on one row; no order's view changes |
| Repositories.Repository.MarkOutboxFailed | server/internal/db/outbox.go:81-95 | records a failure on one row, dead or due again later; no order's view changes |
| Repositories.Repository.ReleaseOutbox | server/internal/db/outbox.go:99-105 | gives one row back without counting an attempt; no order's view changes |
| SerialOrder.EveryCommitHasItsPlace | server/internal/db/postgres.go:209-230 | at every moment of every interleaving of workers and sweepers, with rollbacks anywhere, there is an order of all the committed transactions, each of them once, that run atomically makes the tables of every order |
| Serial.EveryInterleavingIsSerial | server/internal/db/postgres.go:209-230 | commit order is one, and the ledger invariant holds, apart from deliveries that found an event buffered which a sweep removed before they committed |
| SerialOrder.CommitOrderFails | server/internal/db/postgres.go:290-305 | with those deliveries in it, it is not: in some run, commit order would buffer a swept event again |
| SerialRuns.EveryListIsRun | server/internal/db/postgres.go:72-147 | and every order happens: for any list of deliveries and aborts some run commits exactly these, in this order, and leaves what running them atomically leaves |
| SerialHistory.CommittedIsLogged | server/internal/db/postgres.go:74-101 | every commit is in that order once, at its place, and nothing else is; left out is only a delivery that found its event buffered and wrote nothing, if a sweep removed that event before it committed |
| SerialHistory.ConcurrentDeliveriesConverge | server/internal/db/postgres.go:68-101 | with concurrent workers delivering one plan, among any other work and sweeps of other orders, the order is at every moment the longest gap-free prefix of what is committed |
| SerialHistory.PositionsFollowCommits | server/internal/db/postgres.go:307-320 | within an order, outbox positions follow the commit order, although they are drawn before the commit |
| Feed.StoreStartsDispatch | server/internal/db/postgres.go:307-320 | the outbox that concurrent transactions leave is one that dispatchers may start from |
| Feed.CommitsMayBeEnqueued | server/internal/db/postgres.go:307-320 | every row that a commit adds goes last in its aggregate, whatever was recorded on the rows before it |
| Consumers.Consumer.HandleSequenced | server/internal/consumer/consumer.go:235-262 | a settled event took effect in the store, and the DLQ got it as PLAN_MISMATCH iff another plan owns the order; or it was rejected as data and the DLQ got it as DB_REJECTED; an unsettled one changed nothing |
| Consumers.Consumer.HandleAbort | server/internal/consumer/consumer.go:264-283 | likewise for an abort |
| Consumers.Consumer.HandleStoreError | server/internal/consumer/consumer.go:309-314 | only rejected data goes to the DLQ; the record is settled iff the DLQ acknowledged it |
| Consumers.Consumer.HandleRecord | server/internal/consumer/consumer.go:194-233 | one attempt settles the record or changes nothing at all; the DLQ gets exactly the letter that the record calls for, if any, and only if it acknowledges it |
| Consumers.Consumer.ProcessWithRetry | server/internal/consumer/consumer.go:164-189 | unsettled only if every attempt until the cancellation failed; the k-th wait is min(base * 2^k, max) |
| Consumers.Consumer.SweepOnce | server/internal/consumer/consumer.go:331-348 | sends events that waited longer than the TTL to the DLQ, and nothing else; goes on iff the batch was full |
| Consumers.Consumer.ExpirePending | server/internal/consumer/consumer.go:331-348 | sweeps as long as batches are full, stops at the first short or failed one, and never touches the settled records or the offsets |
| Consumers.Consumer.PollOnce | server/internal/consumer/consumer.go:103-130 | fetches what was asked for and exists, settles it in order up to a record that nothing settled before the cancellation, commits exactly the settled part, and polls no more after an unfinished batch |
| History.FetchedMeans | server/internal/consumer/consumer.go:103-118 | of each partition, as many records are fetched as were asked for and exist, each once and in offset order |
| History.AdvanceMeans | server/internal/consumer/consumer.go:149-159 | a partition's offset advances to one past the last record given for it, and stays if there is none |
| Consumers.Consumer.Commit | server/internal/consumer/consumer.go:149-159 | commits the offset after the last settled record of each partition, or nothing |
| Consumers.Consumer.Run | server/internal/consumer/consumer.go:94-131 | every run keeps tables, DLQ and offsets in step with the history, and committed offsets never go back; it stops only at a record that nothing settled before the cancellation, and else has fetched and settled all that was asked for |
| Consumers.Consumer.Restart | server/internal/consumer/consumer.go:90-93 | a new process starts from the committed offsets, with the invariant intact |
| Guarantees.CommittedIsSettled | server/internal/consumer/consumer.go:104-130 | offset safety: every record below a committed offset is settled |
| Guarantees.CommittedIsNotLost | server/internal/consumer/consumer.go:90-93 | and accounted for in the store or in the DLQ, whatever happened since |
| Guarantees.LettersHaveReasons | server/internal/consumer/consumer.go:194-314 | the DLQ is exact: over every history a letter is there only if a handled record did not parse, is invalid, was rejected by the database, or is for an order that belongs to another plan - then and ever since - or if a sweep sent it |
| Guarantees.CrashesAreHarmless | server/internal/consumer/consumer.go:90-131 | after any retries, failed commits, shutdowns and restarts, an order is what one clean pass over its partition makes of it |
| Guarantees.WholePartitionSettled | server/internal/consumer/consumer.go:90-131 | once the partition is settled, of all its records |
| Guarantees.WholePartitionInOrder | server/internal/consumer/consumer.go:90-131 | for an order whose events come in sequence, whatever the sweeper does, as long as no data was rejected |
| Backoff.Compute | server/internal/dispatcher/dispatcher.go:319-327 | the loop computes min(base * 2^(attempt-1), maxDelay), and no intermediate value exceeds base or reaches 2 * maxDelay |
| Backoff.ClosedForm | server/internal/dispatcher/dispatcher.go:319-327 | the specified delay is min(base * 2^n, cap) |
| Backoff.PowersMultiply | server/internal/dispatcher/dispatcher.go:321-327 | the powers in it are those of two |
| Backoff.DelaysGrow | server/internal/dispatcher/dispatcher.go:319-327 | later attempts never wait less |
| Backoff.NextDelay | server/internal/consumer/consumer.go:187 | doubling in place and capping is the same closed form |
| Dispatchers.Dispatcher.Deliver | server/internal/dispatcher/dispatcher.go:213-279 | no other row changes, and this one, unless the bookkeeping fails, as it does whenever the request outlasts its deadline: a 2xx processes it and counts an attempt; a failure counts one, is final iff it was the last allowed, and else due again after min(retryBase * 2^attempts, retryMax); a refusal by the breaker or a failure during shutdown only ends the lease; any other status is final |
| Dispatchers.Dispatcher.DispatchBatch | server/internal/dispatcher/dispatcher.go:182-210 | leases the oldest ready heads and gives each of those rows the mark for its answer, or leaves it leased if the bookkeeping failed; counts the recorded deliveries; an open circuit or a failed claim changes nothing |
| Dispatchers.BatchMeans | server/internal/dispatcher/dispatcher.go:182-210 | row by row: nobody else's row changes, a row whose bookkeeping failed is leased until now + lease, and the others have their mark |
| Dispatchers.MarkedRowMeans | server/internal/dispatcher/dispatcher.go:233-278 | what each kind of answer leaves in the row, value by value |
| Dispatchers.MarkedRowsAt | server/internal/dispatcher/dispatcher.go:194-207 | each entry's row gets its own mark and no other row changes, so the order in which workers finish is immaterial |
| Dispatchers.CountIsProcessed | server/internal/dispatcher/dispatcher.go:192-209 | the count is the number of rows that became processed |
| Dispatch.NothingOvertakes | server/internal/db/outbox.go:22-48 | with any number of dispatchers, crashes, expired leases and lost bookkeeping, no entry is sent before each earlier one of its aggregate was accepted or dead-lettered |
| Dispatch.FirstAcceptedInOrder | server/internal/dispatcher/dispatcher.go:213-279 | entries of one aggregate that are never dead-lettered are first accepted in position order |
| Dispatch.DeliveredWasAccepted | server/internal/dispatcher/dispatcher.go:233-243 | an entry is processed only if the receiver answered a request for it with a 2xx |
| Dispatch.AfterMark | server/internal/db/outbox.go:65-105 | a retry is due from its delay on and not before, a released entry as before, and a settled head makes the next live entry the head |
| Dispatch.RetriesWait | server/internal/db/outbox.go:78-95 | over every run, a failed entry is not claimed again before its backoff has passed |
| Schedule.Acquire | server/internal/dispatcher/dispatcher.go:194-207 | when each entry of a batch gets a worker slot |
| Schedule.StartsWithin | server/internal/dispatcher/dispatcher.go:194-207 | entry i starts within floor(i / Workers) of the longest deliveries |
| Schedule.RoundIsQuotient | server/internal/dispatcher/dispatcher.go:194-207 | the round of entry i is floor(i / Workers) |
| Schedule.BatchFitsIff | server/internal/dispatcher/dispatcher.go:182-210 | every batch of n is over by a deadline iff ceil(n / Workers) of the longest deliveries are |
| Leases.ActKeepsLeasing | server/internal/db/outbox.go:30-105 | each recorded outcome strictly uses up attempts left, and outcomes recorded within the lease keep the order and the bound |
| Leases.RetriesAreBounded | server/internal/dispatcher/dispatcher.go:233-278 | in every run in which outcomes are recorded within the lease, settled entries form a prefix, live ones have attempts left, and N entries take at most N * MaxAttempts recorded attempts |
| Leases.DeadStaysDead | server/internal/db/outbox.go:78-95 | in those runs a dead entry stays dead and a delivered one delivered |
| Leases.MarksFitIsPunctual | server/internal/dispatcher/dispatcher.go:213-217 | if the last outcome of a full batch can only be recorded within its lease, all runs at the dispatcher's pace are such runs |
| Leases.OutlastingIsUnrecorded | server/internal/dispatcher/dispatcher.go:213-217 | at that pace, an entry all of whose deliveries outlast the bookkeeping deadline has no attempt counted and is neither processed nor dead, however often it was sent |
| Leases.FittingIsPunctual | server/internal/dispatcher/dispatcher.go:182-210 | if a batch fits into its lease, all runs at the dispatcher's pace are such runs, and no two deliveries of an aggregate are ever under way at once |
| LeaseBound.ExclusiveIffFits | server/internal/dispatcher/dispatcher.go:182-210 | no two deliveries of one aggregate are ever under way at once, and no two requests for it, in every run at the dispatcher's pace, iff ceil(BatchSize / Workers) of the longest deliveries fit into the lease |
| LeaseBound.DefaultsOverlap | server/internal/dispatcher/dispatcher.go:69-104 | with the default configuration two requests can be |
| LeaseBound.HalfLeaseFitsTwoRounds | server/internal/dispatcher/dispatcher.go:281-288 | whatever the request timeout, they cannot be if a batch has at most twice as many entries as there are workers, because a request gets at most half the lease |
| LeaseBound.SafeIffMarksFit | server/internal/dispatcher/dispatcher.go:194-217 | at the dispatcher's pace, settled entries are always a prefix and dead ones stay dead iff (ceil(BatchSize / Workers) - 1) * longest + min(longest, bookkeeping timeout) is at most the lease, or MaxAttempts is 1 |
| LeaseBound.DefaultsRevive | server/internal/dispatcher/dispatcher.go:69-104 | with the default configuration neither is so |
| LeaseBound.SlowButSafe | server/internal/dispatcher/dispatcher.go:194-217 | with 20 workers and requests of up to 25 s both are, although two requests for one aggregate can overlap |
| LeaseBound.TimeoutsCountIff | server/internal/dispatcher/dispatcher.go:213-217 | in every reachable state, an entry whose requests all time out has no attempt counted and is live, iff the timeout is longer than the bookkeeping deadline |
| LeaseBound.LateMarkRevives | server/internal/db/outbox.go:81-95 | if deliveries and their recording may take any time, settled entries are a prefix and dead ones stay dead iff MaxAttempts is 1: else a late mark revives a dead entry behind its delivered successor |
| Planner.NodeMovesOn | agent/src/planner/nodes.py:60-194 | each node of the graph brings the plan to its next stage: numbered events so far, or the abort that is due |
| Planner.RunPlan | agent/src/runner.py:55-91 | every run publishes each event once, under an id of its own: all five steps in order, or the first few and an abort, or nothing if a payload is invalid; a publish that is not confirmed cuts the run short after the first steps; it reports completed only for an order with items, an allowed amount and a sum within 0.01 of it |
| Planner.ReportMeans | agent/src/planner/nodes.py:60-72 | completed iff every check passes and neither simulated failure strikes; each abort reason is reported iff its check is the first to fail |
| Planner.PublishedMeans | agent/src/planner/nodes.py:75-194 | the event types and the last seq that an order leads to, case by case |
| Planner.EndingMeans | agent/src/planner/nodes.py:60-90 | a plan raises iff the checks pass and some item has a quantity below 1 or a negative price |
| Planner.SomePlansRaise | agent/src/planner/nodes.py:60-90 | some orders pass every check of the plan and raise on their payload |
| EndToEnd.PlanAlone | scripts/check_agent_outcomes.py:49-55 | a published plan, passed once, leaves exactly what the check computes from its report |
| EndToEnd.RowAfterSteps | server/internal/db/postgres.go:232-259 | after the k-th event of a published plan the order row has the plan, the user, the amount, seq k and the k-th of pending, validated, paid, shipped, completed |
| EndToEnd.AgentToStore | scripts/check_agent_outcomes.py:58-76 | so it does in a shared partition, with any crashes, restarts and sweeps, unless data was rejected: the check finds nothing wrong with the row and the event types |
| EndToEnd.OrderToStore | scripts/check_agent_outcomes.py:49-76 | the same from the order itself: tombstone, aborted after one or two events, or completed, with every column of the row and the types in the outbox |
| Sinks.State.Handle | scripts/webhook_sink.py:60-87 | answers 400, 503 or 200 as configured, and the counters are those of all the calls since the reset |
| Sinks.OracleIsExact | scripts/webhook_sink.py:46-87 | nothing is counted twice or dropped; no duplicate is reported iff no key was accepted twice; nothing out of order iff the accepted numbers strictly increase |
| DeliveryOrder.SinkSeesOrder | scripts/webhook_sink.py:74-87 | of an aggregate without dead letters, over every run of the dispatchers, the sink reports no missing key, and no duplicate and nothing out of order iff no entry was accepted twice |
| DeliveryOrder.SinkHasNoProblems | scripts/check_agent_outcomes.py:84-93 | once all its entries are processed, the outcome check finds no problem at the sink iff no entry was accepted twice |
| DeliveryOrder.StoreNumbersRise | server/internal/db/postgres.go:307-320 | the numbers in an order's outbox rise with the positions, from 1 on, as those two assume, if its abort carries none |
| Simulator.StoreProgress | simulator-multi-db.py:15-40 | for the same deliveries the simulated server and the store have the same last number, waiting numbers and processing order |
| Simulator.AnyOrderCompletes | simulator-multi-db.py:15-40 | 1..n in any order, with repeats, are all processed in order, and nothing waits |
| Simulator.Server.HandleEvent | simulator-multi-db.py:15-30 | one event advances its order as specified and no other order |
| Simulator.Server.CheckWaitingRoom | simulator-multi-db.py:32-40 | the release loop is the specification's |
| Simulator.ExactlyOneStalls | simulator-multi-db.py:54-62 | however a plan is spread over two servers, exactly one makes no progress |
| Simulator.ExecuteWithPartition | simulator-multi-db.py:54-62 | so the two always end up different |

## Left out

- Kafka, pgx and HTTP internals, JSON encoding, tracing, metrics, configuration loading: library calls and plumbing. A commit that reports a failure is taken to have had no effect, for the database and for the broker.
- A DLQ acknowledgement or a COMMIT whose success is reported as a failure: the record is then retried, which `Replay` covers for the tables, but the extra letter is not modelled.
- Integer widths: `last_seq_processed`, `seq_id` and `attempts` are 32-bit in the database; a value out of range is rejected as data, which the model has only as an arbitrary rejection.
- Column limits (VARCHAR lengths, DECIMAL(10, 2) rounding) and float64 amounts: an amount is a real number, stored as it is.
- Isolation below statements, deadlock detection, the hashing of the advisory lock key and alternative text forms of a UUID: an order id is the 128-bit value, and locks of different orders are different.
- `Serial.EveryInterleavingIsSerial`: its commit order has no place for a delivery that wrote nothing because it found its event buffered, if a sweep removed that event before it committed, since ON CONFLICT DO NOTHING does not wait for the sweep. Its place is before that sweep: `SerialOrder.EveryCommitHasItsPlace`.
- `Repositories.Repository.LockOrder`: in the class the lock is a statement that may fail, since one transaction runs at a time; what it excludes is modelled in `Serial`.
- `created_at`, `updated_at`, `last_error`, `topic` and the receive time of buffered rows in a ledger: nothing depends on them except the sweep's choice of rows, which `Repositories.Repository.ExpirePending` has.
- `Consumers.Consumer.ExpirePending`: the sweeper goroutine runs between the records of a batch, which is as good as between attempts, since a failed attempt changes nothing.
- Consumer-group rebalancing and several consumers of one partition: every partition has one consumer at a time.
- `Dispatchers.Dispatcher.DispatchBatch`: the deliveries of a batch are recorded one after the other; `Dispatch` has them interleaved with those of other dispatchers.
- The circuit breaker's own state: it is an oracle that may refuse a delivery.
- Attempts whose bookkeeping fails: the code does not count them, so nothing bounds them.
- Liveness: that a database or receiver that works again is eventually used.
- `Planner.RunPlan`: an event whose publish was not confirmed may have reached the broker all the same; it is not counted as published. Random ids, timestamps and the simulated rolls are inputs, amounts are real numbers instead of floats.
- `simulator.py`, `stats` of the sink, the lag metric, outcome labels and configuration defaults: single-branch facts.
