# Verification of the saga engine

A Dafny model of the transaction orchestrator's saga engine, with proofs. One purchase passes
through policy, payment, screening (KYT), signing, broadcast and ledger; when a step fails for good,
the steps already taken are compensated in reverse. Around the engine stand the versioned store, the
outbox relay, the in-memory lease, the confirmation poller and the partitioned dispatcher.

Check it with `dafny verify dfyconfig.toml`.

## How it is laid out

| files | what they hold |
|---|---|
| `StateMachine`, `Dedup`, `Store`, `Partners`, `Steps`, `Commits` | states and transitions, dedup keys, the tables as values, partner answers, the six steps, each store transaction as one atomic change |
| `Executor` | one run of one transaction as functions |
| `Invariants`, `RunTheorems`, `Outcome`, `Funds`, `LostRefund` | what every commit keeps, and whole runs: termination, lockstep, final state, money |
| `Answers`, `Records`, `Sends` | what each answer of a partner leads to, and that a refusal is final; what each commit writes, and that the outbox tells the history; that what is broadcast is what was signed |
| `CrashMachine`, `CrashTheorems`, `Simulation`, `Gates`, `Halting` | the same executor cut into actions, with crashes between any two; Run is one of its runs; what every sequence keeps; exactly when recovery ends |
| `Races`, `RaceLockstep`, `Confirmers` | several runners, confirmers and cascades on one transaction, their commits and their single store calls; confirmers interleaved store call by store call |
| `Flights`, `FlightTheorems`, `FlightRuns` | several flights of one saga with their partner calls, compensations and crashes; what the partners see of them; runs that call twice |
| `MemStore`, `Clients`, `Runner`, `ConfirmPoller`, `Fleet` | the store, the clients, the executor and the poller as objects updated in place, proved against the functions; many transactions in one store |
| `Outbox`, `Relay`, `RelayRaces`, `Delivery` | claim, publish and mark; one relay as it runs; any number of relays, writers and crashes; which events can still be delivered |
| `Lease`, `Dispatcher`, `Backoff` | the in-memory lease, the worker pool, the wait between attempts |
| `Service` | all of it at once: workers, many transactions, the relay, kills and boots |

Two layers recur. The functions say what a piece of code does to values, and the lemmas are about
them. The classes hold the code's own loops and field updates, and each method's `ensures` equates
its new state with the function's result, so the lemmas hold of the methods.

The environment is an `Oracle`: partner answers, whether a wait is cut short, how many polls fit
before a deadline, and the ids of events, each an arbitrary function of how much has been asked
before. Theorems hold for all of them.

`rollback` says whether a failing store transaction is undone. The store's interface promises it; the
in-memory store does nothing. Every single-flight theorem about the saga, transaction and outbox
tables holds either way; only `RecoveryHalts` asks for rollback. `RecoveryHaltsIff` says for both
kinds of store exactly when recovery is sure to end a saga. On a store that persists and does not
roll back it is not always (`RecoveryCanFail`): a refused ledger commit leaves its SUCCEEDED row
behind, and after a crash that row bars the saga's way for good. The in-memory store itself never
meets this, since it does not outlive its process; there the lack of rollback does no harm to a
single flight.

## Where the code and its documentation disagree

The model follows the code.

- The repository's README.md:72 says a transaction is never broadcast twice. Two things break it. A
  crash between the broadcast and its commit broadcasts again on restart (`CrashBroadcastsTwice`). And
  a manual compensation takes neither the lease nor a worker (internal/worker/worker.go:150-166): when
  it goes through while a worker's broadcast is on its way, the worker's refused commit is retried
  (`CompensationRebroadcasts`). `AtMostOnceIff` gives the exact condition for any number of flights,
  `OnceIff` the special case of one flight at a time. Once the hash is committed nothing broadcasts
  again, except a flight that still holds rows from before (`NeverAgain`).
- Its README.md:73 promises at-least-once delivery, and internal/outbox/relay.go:99 a reaper. Nothing
  puts an INFLIGHT event back: `DeliveryIff` says exactly which events can still be delivered,
  `AbandonedForGood` that the rest of a failed batch never is, and `CrashLosesEvent` gives a run.
- internal/saga/saga.go:225 says a saga whose confirmation failed is left in BROADCASTED. The loop goes
  on to execute LEDGER: a hard ledger error parks it FAILED, a success is refused by the path check
  and retried until the cascade refunds (`CommitSuccessExact`, `RunRefinesFinalState`).
- internal/saga/payment_step.go returns the authorization id with a failed capture; the executor drops
  a failed attempt's payload, so it is never recorded. When the void in between fails too, the hold
  stays open and the purchase still ends as compensated (`FailedVoidLeavesHold`); in one undisturbed
  run there is no other way (`PurchaseConserved`).
- internal/worker/worker.go:67 calls Start idempotent. A second Start adds a second set of workers, and
  one transaction can then run on two of them (`SerialIffStartedOnce`).
- Lockstep of the tables needs a single flight, which the lease does not give: Run loads its rows
  before it takes the lease, and a cascade runs outside it. `SuccessLockstepIff`,
  `ParkLockstepIff`, `ConfirmLockstepIff` and `CascadeLockstepIff` say exactly when each commit keeps
  lockstep, `RacingRunnersBreakLockstep` gives a run where it breaks, and on a store that rolls back
  only parkings and cascades can break it (`RaceStaysInLockstep`). What holds of every race is
  `NoLostUpdate` and `RacesStayLawful`, but for a late cascade, which can turn COMPLETED into
  FAILED_COMPENSATED (`LateCascadeReopens`).
- internal/worker/worker.go:92-93 says that recovery completes within 30 seconds. The service calls it
  before it starts the workers (cmd/orchestrator/main.go:117-120), so a scan that finds more sagas of
  one partition than its queue holds waits for ever (`RecoveryFitsIff`), as any scan does that finds
  more than all queues hold (`TooManyNeverRecover`).
- A purchase that ends FAILED_COMPENSATED is not always paid back, nor only once. `RefundsMatchIff`
  gives the exact condition for any number of flights and crashes. What breaks it: a capture under an
  empty id, which the compensation takes for no capture (`EmptyCaptureKeepsTheMoney`); a capture cut
  off from its commit, which nobody refunds (it stays in the account of `FlightsAccounted`); a cascade
  from a step before the payment while another flight captures (`EarlyCascadeKeepsTheMoney`); and a
  second cascade (`CompensationRefundsTwice`). For one undisturbed run only the first is possible
  (`PurchaseConserved`).

## Model

| member | source | states |
|---|---|---|
| `Outcome.RunRefinesFinalState` | internal/saga/saga.go:165-229 | For every partner behaviour, retry limit, and store with or without rollback, a run of an undisturbed saga ends in the state that a store-free reading of the partners' answers foretells |
| `Outcome.RunCompletesIff` | internal/saga/saga.go:165-229 | A new purchase ends COMPLETED if and only if every step succeeds within its retries and the poll after the broadcast confirms |
| `Outcome.CompletedIff` | internal/saga/saga.go:196-227 | The foretold final state is COMPLETED exactly when all remaining steps pass, from any step on; an unconfirmed broadcast can never complete |
| `Outcome.RetryMatches` | internal/saga/saga.go:295-317 | The retry loop over the versioned tables passes, parks or gives up exactly when the loop without a store does, with the same partner calls and payload |
| `RunTheorems.RunHalts` | internal/saga/saga.go:167-228 | Termination with a bound: at most one granted turn per remaining step, at most MaxRetries Execute calls a turn, at most one cascade, and a terminal end; a compensation error always ends FAILED |
| `RunTheorems.LockstepAlways` | internal/saga/saga.go:374-424 | After every turn of a single-flight run the saga row, the transaction row and the outbox agree in state and version, the payload fits the state, and all dedup keys are distinct, rollback or not |
| `RunTheorems.RoundMoves` | internal/saga/saga.go:167-228 | One turn either ends in a terminal state or moves on to a strictly later step, and keeps the whole invariant |
| `RunTheorems.AttemptMoves` | internal/saga/saga.go:319-424 | One attempt moves the three shared tables together by one commit or leaves all three untouched, and says exactly when which |
| `RunTheorems.StuckIff` | internal/saga/saga.go:332-350 | A run executes no step at all if and only if the attempt-1 row of the current step already SUCCEEDED, and then it never ends, in BROADCASTED as in every other state at work |
| `RunTheorems.AttemptActs` | internal/saga/saga.go:319-424 | One attempt whose own row has not SUCCEEDED makes one commit or none, with the exact condition, and touches no other row |
| `Halting.HaltsIff` | internal/saga/saga.go:295-350 | Given that no later step has a SUCCEEDED row, as in every reachable saga, a run over a saga at work is sure to end, whatever the partners answer, if and only if no attempt of its current step within the retry limit that the loop can get to has SUCCEEDED; attempt 2 and later cannot be got to exactly at a broadcast without a signed transaction |
| `Halting.RecoveryHaltsIff` | internal/worker/worker.go:94-105 | After any runs, compensations and crashes, on either kind of store, recovery is sure to end the saga if and only if it is not at the ledger step with a SUCCEEDED attempt within the retry limit; a store that rolls back never has one |
| `Halting.RefusedCommitBars` | internal/saga/saga.go:374-403 | The crash run that gets there without rollback: from a saga resting in BROADCASTED the ledger takes the entry, the commit is refused, the process crashes, and no later run executes anything or ends |
| `Halting.RecoveryCanFail` | internal/store/store.go:218-235 | From a brand-new purchase on a store that persists and does not roll back, some run with two crashes leaves a saga that no run ever ends, whatever the partners answer from then on |
| `RunTheorems.TerminalRunIsNoop` | internal/saga/saga.go:176-179 | Running a terminal saga changes no table and calls no partner |
| `RunTheorems.CascadeCallsMade` | internal/saga/saga.go:495-528 | A cascade calls Compensate on the failed step and then on every earlier step in exact reverse order, each once, and stops early only at a payment step whose refund or void fails |
| `RunTheorems.CascadeRows` | internal/saga/saga.go:498-528 | After a cascade the attempt-1 rows it walked are COMPENSATED, the failing row is FAILED, rows below it, of later steps and of other attempts are as they were |
| `RunTheorems.CascadeMoves` | internal/saga/saga.go:472-550 | A cascade over a non-terminal saga parks it in one commit that keeps the invariant |
| `Funds.PurchaseConserved` | internal/saga/payment_step.go:26-91 | One undisturbed run of a new purchase to its end: COMPLETED is one capture, no refund, one broadcast, one post; FAILED_COMPENSATED refunds exactly its captures, failing just when the capture came back with an empty id; FAILED exactly on a refused ledger entry or a failed compensation; every authorization ends captured or voided if and only if no void after a failed capture failed |
| `LostRefund.EmptyCaptureKeepsTheMoney` | internal/saga/payment_step.go:69-90 | The failing input: a capture that goes through under an empty id and a rejected screening end FAILED_COMPENSATED with the capture kept, nothing refunded and the captured authorization voided |
| `LostRefund.FailedVoidLeavesHold` | internal/saga/payment_step.go:37-60 | The failing input for authorizations: a refused capture whose void fails ends FAILED_COMPENSATED with the authorization neither captured nor voided, since the executor drops its id |
| `Funds.RunBalanced` | internal/saga/saga.go:165-229 | The accounts balance in whatever state a run of any length stops, from any balanced start |
| `Funds.CascadeBalanced` | internal/saga/saga.go:472-550 | A cascade gives back the recorded capture or reports that it could not |
| `Funds.ManualCompensationConserved` | internal/worker/worker.go:150-166 | With no other flight on the saga, a manual compensation from any non-terminal state refunds exactly the captures when it succeeds and nothing when it fails, and ends in the matching state |
| `Answers.AnswerClassified` | internal/saga/kyt_step.go:27-57 | For every step and every answer of its partner: the error is retried exactly when the partner put the step off for the moment; it is final exactly on a denial, a screening that is not clear, a hard error, or nothing to send; a denial parks the saga compensated and a refused entry parks it failed; one Execute call is made and one refusal heard, or none |
| `Answers.AnswerWritten` | internal/saga/policy_step.go:34-51 | What each step writes into the payload: the values its partner answered with, under their own keys, flags only when set, and nothing else |
| `Answers.SkippedAsksNobody` | internal/saga/ledger_step.go:33-38 | A step whose hash or journal id is recorded already succeeds with that value and calls nobody |
| `Answers.RunHeeds` | internal/saga/saga.go:295-317 | A refusal is final: a run that hears one makes no Execute call after it, hears no second, and ends in a failure state |
| `Answers.RetryHeeds` | internal/saga/saga.go:295-317 | The attempt that hears a refusal is the last of its step |
| `Answers.RefusalDooms` | internal/saga/saga.go:353-372 | Action by action: hearing a refusal puts a process on its way to parking the saga or to the cascade |
| `Answers.DoomedForGood` | internal/saga/saga.go:353-372 | From there, with crashes wherever they fall and until something is started again, nothing more is executed, and the saga stays as it is or fails |
| `Sends.SendsWhatWasSigned` | internal/saga/broadcast_step.go:56-60 | However flights overlap and crash: every transaction broadcast is the one recorded as signed, not empty, and an answer the signer gave |
| `CommitRecords.OutboxTellsHistory` | internal/saga/saga.go:405-422 | Over any single-flight runs, compensations and crashes the events appended tell the committed hops one by one and in order: type, committing step and attempt, fresh id, and the key written over these |
| `CommitRecords.SuccessWrites` | internal/saga/saga.go:374-424 | Value by value what a success commit writes: the next step and state, the payload with the step's entries over it, both versions, the attempt's row, and one event with the step, its attempt, the given id and the spelled-out key |
| `CommitRecords.ParkedWrites` | internal/saga/saga.go:431-461 | The same for a parking, whose event names the step and attempt that parked the saga |
| `CommitRecords.ConfirmedWrites` | internal/saga/saga.go:263-291 | The same for a confirmation, whose event names neither |
| `CommitRecords.CascadeWrites` | internal/saga/saga.go:530-548 | The same for the end of a cascade |
| `CommitRecords.NewEventSpells` | internal/store/store.go:145-166 | An event carries the id, type, step and attempt it is made from, and its key spells them out as other services read them |
| `CommitRecords.IdsStayDistinct` | internal/saga/saga.go:405-422 | With fresh ids the ids of the outbox stay distinct over any single-flight sequence, which is what draining relies on |
| `CommitRecords.RunFeedsRelay` | internal/outbox/relay.go:100-126 | A whole run leaves an outbox that fits a relay: only PENDING events appended, ids distinct, and k drains publish it from its first event on, in order |
| `Invariants.CommitSuccessExact` | internal/saga/saga.go:374-424 | The success commit is refused exactly for LEDGER on a saga still waiting for confirmation, and then leaves saga, transaction and outbox untouched even without rollback; otherwise all three move by one legal hop |
| `Invariants.CommitParkedExact` | internal/saga/saga.go:431-461 | A parking commit of a non-terminal saga moves all three tables together although every store error is ignored |
| `Invariants.CommitConfirmedExact` | internal/saga/saga.go:263-291 | A confirmation from current rows moves all three tables together to CONFIRMED |
| `Invariants.CommitCascadeExact` | internal/saga/saga.go:530-548 | The end of a cascade is a legal move although no transition is checked |
| `Invariants.CommittedKeepsCore` | internal/store/store.go:369-423 | A commit of one version, one hop and one event keeps lockstep, distinct dedup keys and the events-behind-state invariant |
| `Invariants.FreshEventAccepted` | internal/store/store.go:411-423 | An executor event of a rank its saga has not reached is never rejected as a duplicate, whatever other transactions share the outbox |
| `Invariants.ExecuteFits` | internal/saga/payment_step.go:26-66 | Every step's success names the state of its step and writes exactly the payload entries of that state; only policy and ledger can park a saga |
| `Invariants.CreatedCore` | internal/api/api.go:159-179 | The rows written for a new transaction satisfy the invariant |
| `CrashTheorems.CrashSafety` | internal/saga/saga.go:319-425 | Over any sequence of runs, manual compensations and crashes between any two actions, one flight at a time, rollback or not: lockstep, distinct dedup keys, a legal committed path, and the captures, broadcasts and refunds that went through are exactly those recorded, about to be recorded, and lost to a crash in between |
| `CrashTheorems.OnceIff` | internal/saga/broadcast_step.go:42-78 | With one flight at a time, a purchase is broadcast at most once if and only if no crash fell between an accepted broadcast and its commit, or one did and the call has not gone through again; the same for captures; crashes anywhere else cost nothing |
| `CrashTheorems.RecordedOnceForAll` | internal/saga/broadcast_step.go:42-78 | With one flight at a time, once a transaction hash is committed nothing started later broadcasts again, and once a capture is committed nothing captures again |
| `CrashTheorems.PathClimbs` | internal/statemachine/statemachine.go:110-143 | Along committed rows the rank strictly rises, payload entries are never dropped, and nothing follows a terminal state |
| `CrashTheorems.RecoveryHalts` | internal/worker/worker.go:94-105 | On a store that rolls back, a run left alone after any crashes ends in a terminal state within six turns |
| `CrashTheorems.CrashBroadcastsTwice` | internal/saga/broadcast_step.go:42-78 | The failing input, on either kind of store: one crash between broadcast and commit and one restart broadcast twice |
| `FlightTheorems.FlightsAccounted` | internal/saga/saga.go:319-424 | Any number of runs, replicas, manual compensations and pollers at once, with crashes: every capture and broadcast that went through is the recorded one, in a flight's hand, lost to a crash or refused by a stale commit; every refund was settled by a cascade, or the same; and every refund is of the recorded capture, which is one that went through |
| `FlightTheorems.AtMostOnceIff` | internal/saga/broadcast_step.go:42-78 | However flights overlap and crash, a purchase is broadcast at most once if and only if no accepted broadcast is unrecorded, or one is and none is recorded; the same for captures |
| `FlightTheorems.RefundsMatchIff` | internal/saga/payment_step.go:69-90 | However flights overlap and crash, once no call is in a flight's hand the refunds are the captures, id by id, if and only if nothing was captured, or all captures carry the recorded non-empty id and one refund went through for each; without unrecorded captures: exactly one refund went through and the id is not empty |
| `FlightTheorems.NeverAgain` | internal/saga/broadcast_step.go:42-78 | Once a hash or a capture is recorded and no flight holds rows from before, that call is never made again, whatever starts, overlaps and crashes later |
| `FlightRuns.CompensationRebroadcasts` | internal/worker/worker.go:150-166 | A failing run without a crash: a manual compensation goes through while a worker's broadcast is on its way, the worker's commit is refused and retried from the old rows, and the transaction is broadcast twice |
| `FlightRuns.CompensationRefundsTwice` | internal/saga/saga.go:472-548 | A failing run without a crash: a manual compensation refunds while a worker is in screening, and the worker's own cascade refunds the same capture again |
| `FlightRuns.EarlyCascadeKeepsTheMoney` | internal/saga/saga.go:482-495 | A failing run without a crash: a flight that gave up the policy step from old rows starts its cascade there, never gets to the payment another flight captured, and ends the purchase as compensated with the money kept |
| `Flights.ActAloft` | internal/saga/saga.go:319-550 | Every single load, store transaction, call and crash of any flight keeps that account, the chain of committed rows, and that a flight works on the step its rows rest on |
| `Flights.GoSaves` | internal/saga/saga.go:384-408 | An action of a flight changes the saga row only by a commit from the current row, into what that commit makes of it |
| `CrashTheorems.ActKeepsSound` | internal/saga/saga.go:319-425 | Every single action, start and crash keeps the machine's invariant and makes at most one commit |
| `Simulation.RunIsMachineRun` | internal/saga/saga.go:165-229 | A whole Run is a crash-free sequence of the crash machine's actions ending in the same world |
| `Simulation.RunCommitsLegalPath` | internal/saga/saga.go:383-408 | The rows a whole run commits form a path of legal hops from the first row to the last |
| `Gates.NothingBeforeItsGates` | internal/saga/kyt_step.go:27-57 | In every run with any crashes, by the answers this run received: no authorization or capture before policy allowed, no broadcast before a capture, a clear screening and a signature, no post before a broadcast, and COMPLETED only after all of these, a confirmation and a post |
| `Gates.RunKeepsGates` | internal/saga/saga.go:165-229 | The same for a whole run of the executor on a new purchase |
| `Gates.CallBrings` | internal/saga/kyt_step.go:27-57 | A step other than payment succeeds only by receiving the very answer it is for, and no call forgets what was received |
| `StateMachine.TransitionClimbs` | internal/statemachine/statemachine.go:132-143 | A move is legal exactly from a non-terminal state to a failure state or one rank up |
| `StateMachine.SuccessPathRefusedIff` | internal/saga/saga.go:597-615 | For the step a saga rests on, the path check refuses exactly LEDGER at BROADCASTED |
| `Dedup.DedupKeyInjective` | internal/store/store.go:164-166 | The dedup key is injective on fields without a separator |
| `Dedup.DedupKeyCollides` | internal/store/store.go:164-166 | With a separator in a field two different events share a key |
| `Dedup.EventKeyInjective` | internal/saga/saga.go:412-422 | Two executor events share a key only when transaction, type, step and attempt all agree |
| `Store.AppendKeepsKeysDistinctIff` | internal/store/store.go:411-423 | An accepted batch keeps the outbox keys distinct exactly when it repeats no key within itself, which appending does not check |
| `Races.NoLostUpdate` | internal/store/store.go:386-399 | Whatever runners, confirmers and cascades race with rows loaded at any time, each committed saga row has the next version and equals what its recorded move makes of exactly the row it replaces |
| `Races.CurrentVersionIsCurrentRow` | internal/store/store.go:386-399 | A held row with the current version is the current row |
| `Races.ActLinked` | internal/saga/saga.go:384-408 | Every single load, commit and attempt row of any racer keeps that chain, and adds to it its own move or nothing |
| `Races.RacesStayLawful` | internal/saga/saga.go:384-408 | When each success belongs to the step its held row rests on and fits it, every row committed in a race is well shaped and every hop legal, except exactly the end of a cascade over a row that was terminal already |
| `Races.LateCascadeReopens` | internal/saga/saga.go:530-548 | The exception occurs: a cascade that loads its rows after another run finished turns COMPLETED into FAILED_COMPENSATED |
| `RaceLockstep.CallsStayLawful` | internal/store/store.go:386-399 | The same at the grain of single store calls, which the in-memory store interleaves: each saved saga row is what its commit makes of the row it replaced, well shaped and one legal hop on, except the end of a cascade over a terminal row |
| `Races.ParkLockstepIff` | internal/saga/saga.go:431-461 | A parking commit from any held rows keeps lockstep exactly when the transition is illegal or its three writes all succeed or all fail |
| `Races.CascadeLockstepIff` | internal/saga/saga.go:535-548 | The same exact condition for the end of a cascade |
| `Races.SuccessLockstepIff` | internal/saga/saga.go:374-424 | A success commit from any held rows breaks lockstep exactly when the saga row is saved and then the transaction row was stale on a store without rollback, or the event is refused |
| `Races.ConfirmLockstepIff` | internal/saga/confirm_poller.go:71-98 | The same exact condition for a confirmation |
| `RaceLockstep.RaceStaysInLockstep` | internal/saga/saga.go:374-461 | On a store that rolls back, a whole race keeps the invariant and lockstep as long as parkings and cascades commit from current rows of a saga at work, however stale the rows of successes and confirmations are |
| `RaceLockstep.FromStoredRows` | internal/store/store.go:386-399 | Both race theorems from the stored rows of any transaction that keeps its invariant |
| `Races.RacingRunnersBreakLockstep` | internal/saga/saga.go:168-186 | Two runners that loaded the same rows before either took the lease do break lockstep |
| `Confirmers.ConfirmedAtMostOnce` | internal/saga/confirm_poller.go:71-98 | However many confirmers interleave their store calls, at most one commits CONFIRMED, losers leave no trace, lockstep holds and there is at most one confirmed event |
| `Confirmers.ActFits` | internal/saga/confirm_poller.go:41-57 | The sandwich argument per action: a confirmer that can still win loaded its transaction row while the broadcast row was current |
| `MemStores.MemStore.InsertStep` | internal/store/store.go:331-344 | A new row for a key, refused as a duplicate when one exists; other transactions untouched |
| `MemStores.MemStore.UpdateStep` | internal/store/store.go:346-356 | The first row with the key is replaced in place, or NotFound |
| `MemStores.MemStore.LoadStep` | internal/store/store.go:358-367 | The status of the row with the key |
| `MemStores.MemStore.SaveSagaState` | internal/store/store.go:386-399 | Replaces the saga row exactly when the new version is one above the stored one |
| `MemStores.MemStore.UpdateTransactionStatus` | internal/store/store.go:369-384 | Sets the status and raises the version exactly when the expected version is stored |
| `MemStores.MemStore.AppendOutbox` | internal/store/store.go:411-423 | Appends all events or none; none exactly when a stored event has a key of the batch |
| `MemStores.MemStore.ClaimOutboxPending` | internal/store/store.go:441-456 | Turns events INFLIGHT in place exactly as the claim function says and returns them |
| `MemStores.MemStore.MarkOutboxPublished` | internal/store/store.go:425-439 | Publishes in place the first event with each id |
| `MemStores.MemStore.CreateTx` | internal/store/store.go:298-329 | Writes all four tables, or Duplicate and no change |
| `MemStores.MemStore.ListInflightSagaIds` | internal/store/store.go:279-289 | Exactly the non-terminal sagas, each once |
| `MemStores.MemStore.EndTx` | internal/store/store.go:218-235 | Commit on success, and on an error rollback or, for the in-memory store, nothing |
| `MemStores.RowTableFirst` | internal/store/store.go:346-367 | Updating the first row with a key is updating that key of the table the rows stand for |
| `MemStores.RowTableAbsent` | internal/store/store.go:331-344 | Appending a row with a new key adds exactly that key to the table |
| `MemStores.CreateTransaction` | internal/api/api.go:159-179 | Creating a transaction writes exactly six PENDING rows, one for each step at attempt 1, the transaction and the saga CREATED at version 1, and one transaction.created event under the given id; it leaves the transaction ready for the executor and touches no other; a second one is refused without effect |
| `MemStores.NewRowsTable` | internal/api/api.go:164-170 | As a table: every step is PENDING at attempt 1 and there is no other row |
| `MemStores.CreatedContents` | internal/api/api.go:159-179 | The rows of a new transaction satisfy the whole invariant in a store that other transactions share |
| `PartnerClients.Clients.ExecutePaymentStep` | internal/saga/payment_step.go:26-66 | Authorize, capture, and void on a failed capture, as the step function says, with the partner state it leaves |
| `PartnerClients.Clients.ExecuteBroadcastStep` | internal/saga/broadcast_step.go:42-78 | Skips the call on a recorded hash, fails hard without a signed transaction, else calls and fills the payload |
| `PartnerClients.Clients.ExecuteLedgerStep` | internal/saga/ledger_step.go:28-60 | Skips the call on a recorded journal id; a hard error parks the saga |
| `PartnerClients.Clients.CompensatePaymentStep` | internal/saga/payment_step.go:69-90 | Refunds a recorded capture, else voids a recorded authorization, else nothing |
| `Runner.Executor.Run` | internal/saga/saga.go:165-229 | The loop over store and lease ends, in the world the run function gives, in a terminal state, with the invariant, touching no other transaction |
| `Runner.Executor.Turn` | internal/saga/saga.go:196-227 | One granted turn does what the round function says |
| `Runner.Executor.RunStepWithRetry` | internal/saga/saga.go:295-317 | The bounded retry loop does what its function says |
| `Runner.Executor.RunStepOnce` | internal/saga/saga.go:319-425 | Row, call and commit of one attempt |
| `PartnerClients.Clients.Execute` | internal/saga/kyt_step.go:27-57 | Each step's call and its classification of the answer equal the step function, which `AnswerClassified` and `AnswerWritten` tie to the partner's answer, with the partner state it leaves |
| `PartnerClients.Clients.Compensate` | internal/saga/payment_step.go:69-90 | Only the payment step has anything to undo |
| `Runner.Executor.BeginAttempt` | internal/saga/saga.go:323-350 | Opens the attempt's row unless it already SUCCEEDED |
| `Runner.Executor.CompensateSteps` | internal/saga/saga.go:482-528 | The reverse loop over the steps equals the cascade's walk |
| `Runner.Executor.MoveStrictly` | internal/saga/saga.go:405-422 | Three writes that stop at the first error equal one strict move of the tables |
| `Runner.Executor.MoveLoosely` | internal/saga/saga.go:535-548 | Three writes with ignored errors equal one loose move of the tables |
| `Runner.Executor.CommitSuccess` | internal/saga/saga.go:374-424 | The success transaction over the store's methods equals the atomic commit, whose writes `SuccessWrites` spells out |
| `Runner.Executor.PersistTerminal` | internal/saga/saga.go:431-461 | The parking transaction equals the atomic commit |
| `Runner.Executor.CompensateCascade` | internal/saga/saga.go:472-550 | The cascade loop and its final transaction equal the cascade function |
| `Runner.Executor.AdvanceToConfirmed` | internal/saga/saga.go:234-261 | The inline polling loop equals its function |
| `Runner.Executor.PersistConfirmed` | internal/saga/saga.go:263-291 | The confirmation transaction equals the atomic commit |
| `Runner.Executor.ManualCompensate` | internal/worker/worker.go:150-166 | Refused without effect exactly on a terminal saga; otherwise the cascade from the current step |
| `Runner.FillPayload` | internal/saga/saga.go:583-592 | A fresh payload with every entry of both, the step's winning, none of the saga's dropped |
| `ConfirmPolling.ConfirmPoller.Run` | internal/saga/confirm_poller.go:35-69 | On a broadcast saga it ends as the inline poller does; on any other it changes nothing; every result code is characterised |
| `ConfirmPolling.ConfirmLands` | internal/saga/confirm_poller.go:71-98 | A confirmation with freshly loaded rows always commits |
| `Fleet.OtherStaysReady` | internal/store/store.go:193-207 | What happens for one transaction keeps the invariant and the saga row of every other |
| `Fleet.CreationKeepsSane` | internal/api/api.go:159-179 | A new purchase keeps the invariant of every transaction in the store |
| `Fleet.DrainKeepsSane` | internal/outbox/relay.go:100-126 | A relay's drain keeps the invariant of every transaction, whatever the publisher accepts |
| `Fleet.Recover` | internal/worker/worker.go:94-105 | Running every saga found in flight one after the other leaves every saga terminal, those that were terminal unchanged, and the store sane |
| `Service.ServiceSafety` | internal/worker/worker.go:107-124 | The dispatcher's workers driving many transactions side by side over one outbox, with the relay at work, purchases coming in and the process killed and booted at any moment, manual compensations apart: no two workers on one transaction, and each transaction keeps lockstep, its legal path and its effects accounted for; single flight is derived |
| `Service.StepHealthy` | internal/worker/worker.go:68-124 | Every single event of the service keeps all its transactions sound |
| `Service.PurchaseIsDriven` | internal/worker/worker.go:107-124 | From the request to the end: a purchase created, submitted and taken by its own partition's worker ends in the terminal world of the executor's run over its created rows |
| `Service.WorkerDrives` | internal/worker/worker.go:107-124 | A worker takes the next job of its partition and, undisturbed, leaves exactly the world the executor's run leaves |
| `Service.OwnPartition` | internal/worker/worker.go:61-65 | A running job belongs to its worker's own partition, so no other worker has its transaction |
| `Outbox.ClaimTakesNextBatch` | internal/store/store.go:441-456 | With PENDING events last, a claim takes the next batch in append order and changes nothing else |
| `Outbox.MarkAllAt` | internal/store/store.go:425-439 | Marking publishes exactly the events with the given ids, each in its place |
| `Outbox.DrainPublishesPrefix` | internal/outbox/relay.go:112-125 | If the j-th publish of a batch fails exactly the j-1 before it become PUBLISHED and the rest stay INFLIGHT, in append order |
| `Outbox.DrainsProgress` | internal/outbox/relay.go:100-126 | One relay without failures: k drains publish exactly the next min(n, kB) events in append order, and none of n is left pending exactly when kB reaches n |
| `Relay.OutboxRelay.DrainOnce` | internal/outbox/relay.go:100-126 | The loop over store and publisher equals the drain function at the first injected failure, and the publisher gets the accepted events in order |
| `Relay.InMemoryPublisher.Publish` | internal/outbox/relay.go:143-153 | Fails exactly the configured call and records every other event |
| `Relay.OutboxRelay.constructor` | internal/outbox/relay.go:46-58 | A batch size that is not positive becomes 100 |
| `RelayRaces.RelaySafety` | internal/outbox/relay.go:100-126 | For any interleaving of relays, appends and crashes: PENDING events are a suffix, each event is handed over at most once, PUBLISHED means accepted, and the outbox neither drops nor reorders |
| `RelayRaces.UntouchedOutboxSafe` | internal/outbox/relay.go:100-126 | Relay safety from any outbox that no relay has touched yet |
| `RelayRaces.ActSafe` | internal/outbox/relay.go:100-126 | Every single claim, publish, mark, append and crash keeps relay safety |
| `Delivery.PassIsDrain` | internal/outbox/relay.go:100-126 | The actions of one undisturbed relay amount to its drain: the same outbox, the same events accepted, and one more handed over when a publish fails |
| `Delivery.DeliveryIff` | internal/outbox/relay.go:100-126 | Some continuation gets an event accepted by the publisher if and only if it already was, is still waiting to be claimed, or is ahead of a relay in the batch it is publishing |
| `Delivery.HandoverIff` | internal/outbox/relay.go:100-126 | The same for handing it to the publisher at all |
| `Delivery.SealedForGood` | internal/outbox/relay.go:100-126 | A claimed event that no relay has ahead is never handed over or accepted again, whatever relays and writers do |
| `Delivery.AbandonedForGood` | internal/outbox/relay.go:112-125 | When a relay crashes, or its publisher fails, the rest of its batch is never accepted later, and nothing after the failed event is ever handed over |
| `Delivery.CrashLosesEvent` | internal/outbox/relay.go:97-99 | A failing run: one relay claims the first pending event and crashes, and the event is lost for good |
| `LeaseMachine.LeaseIsMutex` | internal/lease/inmemory.go:27-72 | In every interleaving of acquires and repeated releases, outstanding grants and map entries are in bijection and no transaction has two |
| `LeaseMachine.GrantedIff` | internal/lease/inmemory.go:27-40 | An acquire is granted if and only if no grant of the transaction is outstanding |
| `LeaseMachine.HeldUntilReleased` | internal/lease/inmemory.go:27-72 | Until its own release ends a grant keeps its entry and no other of its transaction is granted, whatever else is released |
| `LeaseMachine.ReleasedOnce` | internal/lease/inmemory.go:59-69 | The first release frees exactly its own entry; a later one does nothing |
| `LeaseMachine.UnguardedReleaseFreesIff` | internal/lease/inmemory.go:59-69 | Without the once-guard a second release would free an entry exactly when another grant with the same owner name is outstanding |
| `InMemoryLeases.InMemoryLease.Acquire` | internal/lease/inmemory.go:27-40 | The map update in place is the machine's acquire, and the invariant holds |
| `InMemoryLeases.Release.Run` | internal/lease/inmemory.go:59-69 | The release closure is the machine's release; used again it leaves the map alone |
| `Dispatcher.StartedOnceIsSerial` | internal/worker/worker.go:107-124 | Started once, no two workers ever run the same transaction |
| `Dispatcher.RunsInSubmitOrder` | internal/worker/worker.go:84-90 | Started once, the runs of a transaction are a prefix of its accepted submissions in order, one at a time, the rest waiting in its own queue |
| `Dispatcher.NothingLost` | internal/worker/worker.go:68-124 | However often started or stopped, accepted submissions equal done plus running plus queued |
| `Dispatcher.SerialIffStartedOnce` | internal/worker/worker.go:67-73 | A pool is sure to serialise each transaction if and only if it was started at most once |
| `Dispatcher.RecoveryFitsIff` | internal/worker/worker.go:94-105 | Before any worker runs, a recovery scan gets all its ids accepted if and only if no partition has more of them than its queue holds |
| `Dispatcher.TooManyNeverRecover` | cmd/orchestrator/main.go:116-120 | Whatever the hash, a scan that finds more sagas than all queues together hold never gets through; at the dispatcher's own default that takes 1025 |
| `Dispatcher.SharesWorkerIff` | internal/worker/worker.go:41-65 | The pool is as large as configured, or 32, and two transactions share a worker if and only if their hashes agree modulo that number |
| `Dispatcher.PoolAsConfigured` | internal/worker/worker.go:41-82 | A pool configured with n has n queues, serves each partition once for every start, n workers when started once, and never queues more than n jobs in one |
| `Dispatcher.AcceptedIff` | internal/worker/worker.go:84-90 | A submission is accepted if and only if fewer than the configured number wait for the transaction's worker, and goes last in that worker's queue |
| `Dispatcher.TakesOldest` | internal/worker/worker.go:107-124 | An idle worker takes the oldest job of its own queue and is idle again when done |
| `Dispatcher.Config.PartitionOf` | internal/worker/worker.go:61-65 | The partition is in range; which one it is `SharesWorkerIff` says |
| `Backoff.WaitBounds` | internal/saga/saga.go:552-567 | A wait r for delay d satisfies d <= r < 1.5 d; the executor panics exactly for a cap of 1 ns, or a base of 1 ns on the first attempt |
| `Backoff.DelayDoubles` | internal/saga/saga.go:552-567 | The delay starts at the base, doubles, and stays at the cap |
| `Backoff.DelayAsConfigured` | internal/saga/saga.go:552-567 | Over the configured fields: attempt a waits min(base * 2^(a-1), max) before its jitter, with 200 ms and 10 s for fields that are not positive |
| `Backoff.WaitAsConfigured` | internal/saga/saga.go:552-567 | A wait can be drawn if and only if it lies from the delay up to half as much again |
| `Backoff.TotalAsConfigured` | internal/saga/saga.go:295-317 | Over the configured fields: n waits, the last included, add up to less than 1.5 min(base (2^n - 1), n max), with the same defaults |
| `Backoff.TotalWaitBounds` | internal/saga/saga.go:295-317 | n attempts wait, the last included, in all at least the capped geometric series of their delays, less than one and a half times it, and less than 1.5 min(base (2^n - 1), n max) |

## Left out

- HTTP handlers, authentication, configuration, logging, migrations, gRPC clients and Kafka: wrappers
  around I/O. From the API only the rows of a new transaction are modelled.
- PgStore's SQL and the Redis lease: foreign systems. Of PgStore only rollback is modelled, as a flag.
- Timestamps, row ids, idempotency hashes, error texts, audit records, request contents and the
  `unsigned_tx_hex` entry: they steer no branch modelled here except as arbitrary partner answers.
- Real time and contexts: a deadline or a cancelled context is an arbitrary early give-up of a wait or
  an arbitrary number of polls. Polls and lease refusals are finite, as deadlines make them; a context
  cancelled in the middle of a store call is not modelled.
- Steps registered other than the canonical six, unknown step names and steps without a client: steps
  are a closed enumeration. The terminal result without an error, which no canonical step returns,
  is not modelled.
- Store failures other than not found, conflict and duplicate, which are all the in-memory store has.
- Payload aliasing: payloads are values, so that merging cannot change a shared map is built in;
  `FillPayload` shows that the merge fills a fresh one.
- Store transactions are atomic in the crash and race machines, as the interface states. `Confirmers`
  and `CallsStayLawful` take the in-memory store's single calls as their atoms instead; at that
  grain the lockstep of racing runners and cascades is not modelled.
- Runner.Lease: how often the lease is refused is the environment's choice, since a run of one
  transaction cannot see the other holders; the lease itself is proved in `LeaseMachine`.
- Refresh of the in-memory lease by its ticker: it changes nothing in the code either.
- Dispatcher: its channels, goroutines and selects are modelled as a state machine over their steps,
  not as an object; a submit that waits for room in its queue is a step that may be taken later.
- Control.Retry: a check for a terminal saga followed by Submit.
- Fleet.Recover: runs the recovered sagas one after the other, over the store object; `Service` has
  them side by side, on values.
- Service: leaves out the manual compensation, which runs outside the workers and is a second flight,
  the lease, which the dispatcher makes redundant in one process, and several processes at once; all
  of these are in `Flights`, for one transaction.
- Flights: takes no lease, so any flights may overlap; a lease only makes some of these runs
  impossible. A poll of a saga that left BROADCASTED between two reads is allowed and commits nothing.
- Ids of new events are arbitrary and, where relays need it, distinct, as random UUIDs are taken to be;
  publishing times are not kept.
- The FNV hash is an arbitrary function into 32 bits, and an `int` is taken to hold it.
- Backoff.WaitBounds: floating point is exact here, as it is for a base below 2^53 ns, since doubling
  and capping round nothing.
- Which terminal state a crash in the middle of a cascade leads to: the saga resumes from its old state
  and may end in another way; the account of its calls is proved all the same.
