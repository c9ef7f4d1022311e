# KarmaSakshi in Dafny

KarmaSakshi is an execution protocol: an effect is prepared, sealed, authorized, committed at most once,
verified and recorded in a hash-chained journal. This project models the parts of it where the hard
guarantees live and proves them for every input, every run and every interleaving. `dafny verify
dfyconfig.toml` checks all of it.

| part | files |
|---|---|
| commit protocol | `Lifecycle`, `GrantStore`, `Outbox`, `Budget`, `PaymentSimulator`, `CommitProtocol` (the step machine), `CommitInvariants`, `CommitRuns`, `CommitTheorems`, `CommitAccounts`, `CommitOutbox`, `CommitReplay`, `CommitEndings`, `RecoveryEndings`, `CommitScenario` |
| the engine and store objects | `Stores`, `BudgetLedger`, `EngineSteps`, `EngineTrace`, `EngineMemory`, `Engine`, `EngineRuns` |
| audit journal | `AuditChain`, `AuditBackends`, `AuditRuns` |
| causal graph | `GraphPaths`, `CausalGraph` |
| canonical JSON | `JsonText`, `CanonicalJson`, `CanonicalEquality` |
| quorum | `Quorum`, `QuorumTheorems`, `QuorumConsent`, `QuorumRejected` |
| decision envelopes | `Constraints`, `Envelope`, `Substitution` |
| delegation | `Revocation`, `Delegation`, `DelegationLineage`, `DelegationBindings` |
| row adapter | `RowTable` |
| shared | `Wrappers`, `Faults`, `Principals`, `Amounts`, `Ordering` |

## How it is modelled

**Commit protocol.** A world is the shared stores, the memories of any number of engines and any number of
calls in progress. One step of a call is one call to a store, to the journal or to the adapter, so every
interleaving of such calls is a run. Every one of these calls may also raise by itself, before its effect or
after it, as when a reply is lost. Where the code catches the exception the machine follows the handler; where
it does not, the call is thrown out and its reservations stay behind as they are: the release calls of the undo
path, the reservation of the grant (src/karmasakshi/stores/redis_store.py:88-100), the look-up of an outcome,
and the closing calls after a success. `CommitAccounts.ThrownExitLeavesExactly` says exactly what stays behind.
The checks on seals, signatures, windows, policies and adapters that come before any reservation are such a
raise too. A call that takes no further step is a crash. Others may revoke grants, write lineage, register
budgets, fund accounts, inject provider faults and submit payments at any time. `Engine` holds the sequential
code over the store objects; before each of its store calls the stores may have been changed by others, and
each method is proved to take exactly the steps of the machine. `EngineRuns` composes such a call with what the
others did into a run from empty stores, and draws the results over runs for it.

**Assumptions.** Every store call is atomic; confirming an intent, which looks it up first, and the ancestor
walk count as one. A manifest hash is identified with the manifest, and hashes are otherwise arbitrary functions
whose freedom from collisions is a hypothesis wherever it is needed. A call that starts is carried by one engine,
which is sequential. Times are integers.

**What the code does, where the documentation says otherwise.**

- docs/crash-recovery.md:15-29 and :45-48 promise that a new manifest with the key of an earlier commit is
  answered by replay, after a plain success and after recovery. With an outbox neither happens: `record_pending`
  refuses another manifest under a known key (src/karmasakshi/outbox/memory.py:25-37), and the manifest that is
  on record enters COMMITTING only once. So no call that has not yet passed the outbox is ever replayed for a
  key on record, whether the intent is pending, confirmed or abandoned: `CommitOutbox.KeyOnRecordIsClosed`. The exact condition for a replay, over
  all runs, is `CommitReplay.RetryIsReplayedExactlyWhen`; `CommitScenario.RecoveredPaymentIsNotReplayed` is a
  run in which the recovered payment is not replayed.
- A raise that no handler catches leaves reservations behind
  (src/karmasakshi/engine/core.py:1460, 1530): `CommitAccounts.ThrownExitLeavesExactly`.
- The engine writes lineage rows for delegated grants only (src/karmasakshi/engine/core.py:132-136), and the
  ancestor walk demands a row for the root too, so a delegated grant is denied unless someone else records its
  root: `Revocation.UnrecordedAncestorBlocks`.
- Quorum evaluation is described as independent of order (src/karmasakshi/approval/quorum.py:1-8); it is so
  exactly when tied statements agree: `QuorumTheorems.OrderFreeExactlyWhenTiesAgree`.
- The envelope narrowing check takes an added key for a restriction (src/karmasakshi/envelope/model.py:335-336),
  although a strict parent refuses every manifest that carries it: `Envelope.NarrowingSoundExactlyWhen`.
- Python equality identifies True with 1, while ranges refuse booleans; hence the exceptions in
  `Constraints.NarrowingSoundExactly` and `Constraints.NarrowingTransitiveExactly`.
- A submission from an account that was never funded, with a total that is not positive, raises a lookup error
  (src/karmasakshi/adapters/payment_simulator.py:138); the model has it as its own reply.
- `delegate` says that fields left out inherit the parent's exact value; the bindings to a manifest, a policy,
  an envelope and a graph do not: `DelegationBindings.InheritedExactlyWhenRepeated`.
- An insert starts at version 0, so deleting and inserting a row defeats the version check:
  `RowTable.ReinsertionDefeatsVersion`.
- Compensation of an update has no version check and overwrites later writes:
  `RowTable.CompensationAfterOtherWrites`.

## Model

| member | source | states |
|---|---|---|
| `Lifecycle.LegalPathClimbs` | src/karmasakshi/state_machine/states.py:63-104 | along any path of legal edges no state comes back, so each state is entered at most once |
| `Lifecycle.SourcesExactly` | src/karmasakshi/state_machine/states.py:63-104 | the transition table read backwards: for every state exactly the states it can be entered from |
| `Lifecycle.CommittedInOneWay` | src/karmasakshi/state_machine/states.py:63-104 | a legal path from PROPOSED reaches COMMITTED in one way only, through PREPARED, SEALED, AUTHORIZED and COMMITTING |
| `CommitInvariants.MoveSound` | src/karmasakshi/engine/core.py:1431-1643 | at every point of commit and recovery, and whether the next call goes well, raises without effect or raises after its effect, the call is met without error, moves the account exactly as it moves the stores, and claims nothing that has not just been read |
| `CommitInvariants.OpMetered` | src/karmasakshi/budget/ledger.py:63-94 | every operation moves the reserved and consumed amounts of each budget, and the reserved slot and use count of each grant, by exactly its own share |
| `CommitInvariants.OpKeepsSound` | src/karmasakshi/budget/ledger.py:63-108 | no operation of the protocol lets consumed plus reserved exceed a limit, oversubscribes a grant, loses money or records an outcome without a settled payment |
| `CommitInvariants.OpKeepsOthers` | src/karmasakshi/engine/core.py:1471-1643 | an operation of one call leaves the standing of every other call intact, unless it abandons that call's own intent |
| `CommitRuns.EntriesStayDistinct` | src/karmasakshi/engine/core.py:185-211 | two calls never both move one manifest to COMMITTING: the second compare-and-set would have to start from a state the first has left behind |
| `CommitRuns.IntentsApart` | src/karmasakshi/engine/core.py:1496-1528 | only the call that recorded an intent can abandon it |
| `CommitRuns.RunKeeps` | src/karmasakshi/engine/core.py:1188-1702 | the invariant of the protocol holds after every interleaving of any number of calls with revocations, registrations, fundings, faults and foreign submissions |
| `CommitTheorems.StoredStatesFollowLegalPath` | src/karmasakshi/engine/core.py:185-272 | in every run the states stored for a manifest form a legal path from PROPOSED |
| `CommitTheorems.EveryStateIsEnteredAtMostOnce` | src/karmasakshi/engine/core.py:185-272 | in every run no state, COMMITTING in particular, is stored twice for a manifest |
| `CommitTheorems.CommittedWasAuthorized` | src/karmasakshi/engine/core.py:185-272 | in every run a manifest stored as COMMITTED has gone through PREPARED, SEALED, AUTHORIZED and COMMITTING, in this order and directly |
| `CommitTheorems.CommitWritesWhatHappened` | src/karmasakshi/engine/core.py:1471-1643 | over all runs a commit changes the stored state of its own manifest alone: COMMITTING over AUTHORIZED at its entry, COMMITTED over COMMITTING only after a success or a replay, FAILED only when there was neither |
| `CommitTheorems.RecoveryWritesOverFailed` | src/karmasakshi/engine/core.py:1689-1702 | over all runs recovery stores nothing but RECOVERED_COMMITTED, over FAILED, for its own manifest |
| `CommitTheorems.AdapterIsCalledAtMostOnce` | src/karmasakshi/engine/core.py:1471-1494 | in every run adapter.commit is called at most once per manifest id, whichever engines try |
| `CommitTheorems.AdapterCallIsPrepared` | src/karmasakshi/engine/core.py:1431-1586 | in every run a call that stands at the adapter has its own intent on record and not abandoned, its manifest past COMMITTING, its grant reserved, and the resolved amount reserved on the budget it binds |
| `CommitTheorems.ReservationsAccountForCalls` | src/karmasakshi/budget/ledger.py:63-94 | in every reachable world reserved is the sum over the calls that hold a reservation, consumed the sum over the successful calls, both within the limit; grants are held by exactly one call; no release or finalization has hit its error branch |
| `CommitAccounts.NetChangeIsShare` | src/karmasakshi/engine/core.py:1431-1643 | over any run, the sum of what a call's own steps add to and take from the ledger and the grant store is the change of its account |
| `CommitAccounts.EveryExitSettlesItsAccount` | src/karmasakshi/engine/core.py:1431-1643 | every exit of commit in order has, by its own steps, left the reserved amount of every budget and the slot of every grant as they were; it has added the resolved amount to what its budget has consumed iff the adapter reported success to it, and one use to its grant iff it succeeded or was replayed, which exclude one another |
| `CommitAccounts.ThrownExitLeavesExactly` | src/karmasakshi/engine/core.py:1460-1530 | an exit by a raise that no handler catches leaves the charge and the grant reserved exactly when it happened at one of the listed calls, the grant reservation and the outcome look-up among them |
| `CommitAccounts.UndisturbedIsNeverThrown` | src/karmasakshi/engine/core.py:1431-1643 | a call none of whose own calls raises leaves in order, whatever happens to the others |
| `CommitTheorems.QuietStoresHoldNothing` | src/karmasakshi/engine/core.py:1456-1643 | once every call has come to its end, none of them thrown out, no reservation is left anywhere |
| `CommitTheorems.MoneyIsConserved` | src/karmasakshi/adapters/payment_simulator.py:78-155 | in every run, for each account, the funded amount is the balance plus the totals of the settled keys |
| `CommitTheorems.RecordsNeverChange` | src/karmasakshi/adapters/payment_simulator.py:95-155 | in every run the provider's record of a key never changes once written |
| `CommitTheorems.SuccessIsBackedBySettlement` | src/karmasakshi/engine/core.py:1586-1643 | a call that reports success or replay has a settled payment behind it, debited once |
| `CommitTheorems.RecoveredKeyIsNeverResubmitted` | src/karmasakshi/engine/core.py:1530-1550 | once an outcome is recorded for a key, no commit of that key that starts later ever calls the adapter |
| `CommitTheorems.RecoveryRecordsEvidence` | src/karmasakshi/engine/core.py:1663-1702 | recovery comes to record an outcome only when the provider holds a settled record of the key with the amount and beneficiary of this manifest, and has recorded it unless the store raised first |
| `CommitOutbox.EveryEntryHasItsCall` | src/karmasakshi/engine/core.py:1496-1517 | in every run every outbox entry was recorded by a call that has moved the manifest of the entry to COMMITTING and is past the outbox |
| `CommitOutbox.KeyOnRecordIsClosed` | src/karmasakshi/outbox/memory.py:20-39 | with an outbox, once any intent for a key is on record, pending, confirmed or abandoned, no call for that key that is not already past the outbox, and none that starts later, reaches the adapter or is replayed |
| `CommitOutbox.AbandonedKeyIsNeverReplayed` | src/karmasakshi/engine/core.py:1496-1550 | in particular an abandoned key stays abandoned, and no later commit of it succeeds or is replayed, even after recovery found the settlement |
| `CommitOutbox.ServedCallIsBooked` | src/karmasakshi/engine/core.py:1618-1643 | in every run, once a call has ended in order after a success or a replay, the outcome of its key is on record and its intent is confirmed, for good |
| `CommitOutbox.UnknownOutcomeStaysOpen` | src/karmasakshi/engine/core.py:1586-1602 | when the adapter raises, before or after its effect, the intent of the call is never abandoned, by anyone, in any continuation |
| `Outbox.KeysLifeExactly` | src/karmasakshi/outbox/memory.py:20-67 | recording makes a key pending for that grant and manifest, confirming and abandoning end it the one way or the other, repeatedly but never both, and nothing else is touched |
| `CommitTheorems.RevokedAncestorDeniesLaterCommits` | src/karmasakshi/engine/core.py:1407-1418 | with recorded lineage left alone, once any ancestor is revoked every commit with the grant that starts later is denied before it reserves anything |
| `CommitTheorems.RevokedGrantIsNeverReserved` | src/karmasakshi/engine/core.py:1460-1469 | once a grant is revoked no call ever takes its reservation again, however far it had come |
| `CommitReplay.ReplayedExactlyWhen` | src/karmasakshi/engine/core.py:1397-1550 | an undisturbed commit from its start, for a key with a recorded outcome, is answered by replay iff it is admitted, budget and grant are available, memory and store agree on AUTHORIZED, and the outbox takes its intent |
| `CommitReplay.RetryIsReplayedExactlyWhen` | src/karmasakshi/engine/core.py:1530-1550 | after any run whatsoever, for a key with a recorded outcome: a commit that then runs undisturbed is replayed iff there is no outbox or the key is not in it, the manifest is AUTHORIZED in the store and not otherwise in memory, and the call is admitted with budget and grant available |
| `CommitEndings.CommitSucceedsExactlyWhen` | src/karmasakshi/engine/core.py:1188-1643 | after any run whatsoever: a commit that then runs undisturbed is carried out iff it is admitted, budget and grant are available, the manifest is AUTHORIZED in the store and not otherwise in memory, the key is neither on record nor settled already by an outcome, the balance is the one expected and covers the total, and the provider holds a settled record or has nothing injected for a funded account |
| `CommitEndings.CarriedOutCommit` | src/karmasakshi/engine/core.py:1586-1643 | and it then leaves: COMMITTED in the store and in the engine's memory, the intent confirmed, one use spent and nothing in flight, the resolved amount consumed and nothing reserved, the payment with the provider, and the provider's reference as the outcome of the key |
| `CommitEndings.ServedMeansCommitted` | src/karmasakshi/engine/core.py:1530-1643 | whenever an undisturbed commit ends with a success or a replay its manifest is COMMITTED, in the store and in memory |
| `CommitEndings.SuccessSolo` | src/karmasakshi/engine/core.py:1586-1643 | a success, from any stores: every store as it is left behind |
| `CommitEndings.ReplaySolo` | src/karmasakshi/engine/core.py:1530-1550 | a replay: COMMITTED, intent confirmed, one use spent, no budget consumed, provider not asked |
| `CommitEndings.StaleSolo` | src/karmasakshi/engine/core.py:1568-1584 | preconditions that no longer hold: FAILED, intent abandoned, nothing consumed, provider not asked |
| `CommitEndings.NoSuccessSolo` | src/karmasakshi/engine/core.py:1586-1616 | no success from the adapter: FAILED, nothing consumed, no outcome recorded; the intent abandoned after a reported failure and left pending after an exception |
| `CommitEndings.RefusedSolo` | src/karmasakshi/engine/core.py:1496-1517 | a refusal of the outbox: everything given back, the manifest left in COMMITTING |
| `CommitEndings.RaiseSolo` | src/karmasakshi/engine/core.py:1552-1602 | a raise while the preconditions are checked, or by the adapter before or after its effect: FAILED with both reservations given back, the intent abandoned when the adapter was not reached and pending when its outcome is unknown |
| `CommitEndings.AdmittedExactly` | src/karmasakshi/engine/core.py:1233-1418 | the store checks before a reservation pass iff the grant is bound to the manifest and not revoked, and its recorded parents lead within 16 grants to a recorded root with none revoked |
| `CommitEndings.ReservationsExactly` | src/karmasakshi/engine/core.py:1431-1460 | the two reservations can be had iff the resolved amount remains on the bound budget, and the grant is not revoked, not in flight and not used up |
| `CommitScenario.TimeOutSolo` | src/karmasakshi/adapters/payment_simulator.py:148-155 | a commit whose payment settles and times out ends refused, with the payment on the provider's books, its intent abandoned and its manifest FAILED |
| `RecoveryEndings.RecoverySolo` | src/karmasakshi/engine/core.py:1663-1702 | undisturbed recovery, from any stores: without a settled record of this key, amount and beneficiary it changes nothing; with one it records the outcome, confirms a pending intent, submits nothing, and moves the manifest to RECOVERED_COMMITTED iff memory and store have it as FAILED |
| `CommitScenario.RecoveredPaymentIsNotReplayed` | src/karmasakshi/engine/core.py:1496-1550 | a run from empty stores that shows it: fund, time out, recover, and the retry with a fresh manifest, admitted and moved to COMMITTING, ends neither replayed nor carried out |
| `EngineTrace.PassedIsReplay` | src/karmasakshi/engine/core.py:213-272 | the scenes an engine call passes through are the machine's steps replayed on the stores it found |
| `EngineTrace.TraceIsRun` | src/karmasakshi/engine/core.py:1188-1702 | when what others did between the store calls of a sequential engine call are actions of a run, the whole is one run of the machine, and leads attempt and engine memory to where the trace leads them |
| `EngineMemory.RememberedIsStored` | src/karmasakshi/engine/core.py:185-272 | a commit that leaves COMMITTED in the engine's memory after a success or a replay has itself moved the stored row from COMMITTING to COMMITTED, whatever others do to the stores |
| `EngineRuns.EngineCallIsRun` | src/karmasakshi/engine/core.py:1188-1702 | the scenes recorded by a call of the engine object are those of one attempt in a run from empty stores |
| `EngineRuns.AdapterIsCalledOnce` | src/karmasakshi/engine/core.py:1471-1494 | no run has two actions that call the adapter for one manifest id |
| `EngineRuns.EngineCommitIsSafe` | src/karmasakshi/engine/core.py:1188-1643 | whatever the others did, a commit of the engine object never runs into a store's error branch, nets to nothing reserved when it leaves in order, is thrown out only by a raise of its own calls, and the adapter is called at most once for its manifest in the whole run |
| `Engine.KarmaSakshiEngine.GetRecord` | src/karmasakshi/engine/core.py:170-183 | the cached record, else the stored state, else PROPOSED, and caches it |
| `Engine.KarmaSakshiEngine.Persist` | src/karmasakshi/engine/core.py:185-211 | insert-or-replace by compare-and-set under interference; a write that does not happen, or that raises even after it happened, puts the in-memory record back to the state it came from |
| `Engine.KarmaSakshiEngine.Transition` | src/karmasakshi/engine/core.py:213-272 | memory ends at the target exactly when the durable write went through and was acknowledged along a legal edge, and otherwise at the state it had |
| `Engine.KarmaSakshiEngine.Admit` | src/karmasakshi/engine/core.py:1397-1429 | lets a call through only if the grant is bound to the manifest, not revoked, and its ancestor walk is clean |
| `Engine.KarmaSakshiEngine.ReserveBudget` | src/karmasakshi/engine/core.py:1431-1454 | resolves and reserves the amount, denies with nothing reserved, or is thrown out by the ledger |
| `Engine.KarmaSakshiEngine.ReserveGrant` | src/karmasakshi/engine/core.py:1460-1469 | takes the grant's reservation slot as the store allows; a raise of the store, with or without effect, throws the call out past the budget reservation |
| `Engine.KarmaSakshiEngine.ReleaseBudget` | src/karmasakshi/engine/core.py:1456-1458 | gives back exactly the charge taken, unless the ledger raises |
| `Engine.KarmaSakshiEngine.RecordIntent` | src/karmasakshi/engine/core.py:1496-1517 | records the intent or turns to the undo path |
| `Engine.KarmaSakshiEngine.Consult` | src/karmasakshi/engine/core.py:1530-1532 | finds the recorded outcome of the key, if any; a raise of the store throws the call out with both reservations |
| `Engine.KarmaSakshiEngine.CallAdapter` | src/karmasakshi/engine/core.py:1586-1603 | the one call with an external effect: success, failure, or an exception, raised by the provider's own reply or by itself, before or after the effect |
| `Engine.KarmaSakshiEngine.FailEffect` | src/karmasakshi/engine/core.py:1603-1616 | grant, budget, intent and lifecycle are undone in the order of the code; an unknown outcome leaves the intent pending; when nothing raises memory says FAILED |
| `Engine.KarmaSakshiEngine.ReplayOutcome` | src/karmasakshi/engine/core.py:1530-1550 | a replay releases the budget, confirms the intent, spends the use and settles the lifecycle; it is told only when memory has the manifest as COMMITTED |
| `Engine.KarmaSakshiEngine.SettleBooks` | src/karmasakshi/engine/core.py:1618-1643 | a success consumes the budget, confirms the intent, spends the use and settles the lifecycle; it is told only when memory has the manifest as COMMITTED |
| `Engine.KarmaSakshiEngine.CommitEffect` | src/karmasakshi/engine/core.py:1188-1643 | under arbitrary interference and with a raise possible at every call, the whole call takes exactly the steps of a commit attempt until it has left the engine; what it tells its caller agrees with what happened to the call, with the adapter's answer and with memory; and a success or a replay it tells of has moved the stored row from COMMITTING to COMMITTED |
| `Engine.KarmaSakshiEngine.RecoverAmbiguousCommit` | src/karmasakshi/engine/core.py:1647-1702 | recovery takes exactly the steps of a recovery attempt, always comes to an end, and tells of evidence iff its probe came back and found the payment of this manifest settled |
| `Engine.KarmaSakshiEngine.Transit` | src/karmasakshi/engine/core.py:213-272 | the transition of any other engine operation, as a call of its own |
| `Stores.InMemoryLifecycleStore.CompareAndSet` | src/karmasakshi/stores/lifecycle_memory.py:25-36 | succeeds iff the stored value is the expected one, and only then writes |
| `GrantStore.ReserveExactly` | src/karmasakshi/stores/memory.py:32-41 | a reservation is granted iff the grant is not revoked, not in flight and not used up, and is then held; a revoked grant stays refused |
| `GrantStore.FinalizeExactly` | src/karmasakshi/stores/memory.py:43-66 | what finalizing, releasing and revoking do to one grant, and that they touch no other grant, no other key and no lineage |
| `Stores.InMemoryGrantStore.Reserve` | src/karmasakshi/stores/memory.py:32-41 | takes the slot iff the grant is not revoked, not in flight and not used up |
| `Stores.InMemoryGrantStore.Finalize` | src/karmasakshi/stores/memory.py:49-58 | spends one use and records the outcome, only with a reservation in hand |
| `Stores.InMemoryOutboxStore.RecordPending` | src/karmasakshi/outbox/memory.py:20-39 | accepts a new key or the same intent while pending, and nothing else |
| `Stores.InMemoryOutboxStore.MarkConfirmed` | src/karmasakshi/outbox/memory.py:45-56 | confirms unless unknown or abandoned |
| `Stores.InMemoryOutboxStore.MarkAbandoned` | src/karmasakshi/outbox/memory.py:58-67 | abandons unless unknown or confirmed |
| `Budget.ConsumeIsReserveThenCommit` | src/karmasakshi/budget/ledger.py:63-108 | consuming at once equals reserving and then committing the reservation |
| `Budget.ReserveThenReleaseRestores` | src/karmasakshi/budget/ledger.py:63-82 | releasing a reservation restores the ledger |
| `Budget.ReserveTakesWhatRemains` | src/karmasakshi/budget/ledger.py:58-72 | a reservation goes through iff the amount is positive and remains, and takes it off that budget alone |
| `Budget.ConsumeAmount` | src/karmasakshi/budget/consume.py:11-36 | one per commit for a count budget, the positive estimated cost in the same currency for a monetary one, and an error otherwise |
| `Budget.RegisterExactly` | src/karmasakshi/budget/ledger.py:43-52 | a registration is refused iff another definition holds the id; a first one starts at nothing consumed or reserved, a repeated one changes nothing |
| `BudgetLedger.InMemoryBudgetLedger.Remaining` | src/karmasakshi/budget/ledger.py:58-61 | what remains of a known budget, never negative and never above the limit |
| `BudgetLedger.InMemoryBudgetLedger.Register` | src/karmasakshi/budget/ledger.py:43-52 | registering keeps the books of a known budget and refuses a conflicting definition |
| `BudgetLedger.InMemoryBudgetLedger.Reserve` | src/karmasakshi/budget/ledger.py:63-72 | reserves iff the amount is available, keeping consumed plus reserved within the limit |
| `BudgetLedger.InMemoryBudgetLedger.Release` | src/karmasakshi/budget/ledger.py:74-82 | gives back at most what is reserved, or changes nothing |
| `BudgetLedger.InMemoryBudgetLedger.Commit` | src/karmasakshi/budget/ledger.py:84-94 | turns at most what is reserved into consumption, or changes nothing |
| `BudgetLedger.InMemoryBudgetLedger.Consume` | src/karmasakshi/budget/ledger.py:96-108 | consumes at once iff available |
| `PaymentSimulator.FundKeeps` | src/karmasakshi/adapters/payment_simulator.py:78-79 | funding conserves money and changes no record |
| `PaymentSimulator.SubmitKeeps` | src/karmasakshi/adapters/payment_simulator.py:95-155 | every submission, settled, failed, timed out or repeated, conserves money, debits a key at most once and changes no record |
| `PaymentSimulator.SettlesExactly` | src/karmasakshi/adapters/payment_simulator.py:106-155 | a new key settles iff no failure is injected and a funded account covers the total, and takes the total off that account alone |
| `PaymentSimulator.FirstReplyExactly` | src/karmasakshi/adapters/payment_simulator.py:110-155 | a new key: the settled record of this payment comes back iff it settles without a timeout, a timeout iff it settles with one, the failed record iff a failure is injected or the balance falls short; and when each injection is used up |
| `PaymentSimulator.CommitReplyExactly` | src/karmasakshi/adapters/payment_simulator.py:227-253 | the engine is told of a success, with the reference of the record, iff a settled record comes back, of an exception iff the account is missing, and of a failure otherwise |
| `PaymentSimulator.ResubmitIsFree` | src/karmasakshi/adapters/payment_simulator.py:106-108 | submitting a known key again moves nothing and repeats the answer |
| `PaymentSimulator.PaymentSimulator.SubmitPayment` | src/karmasakshi/adapters/payment_simulator.py:95-155 | the provider object carries out the submission and keeps conservation |
| `Revocation.AssertNoRevokedAncestors` | src/karmasakshi/delegation/revocation.py:33-71 | the loop computes the recursive walk, errors included |
| `Revocation.WalkAccepts` | src/karmasakshi/delegation/revocation.py:33-71 | the walk returns normally iff the parent path has at most max_depth nodes, avoids the grant, holds no revoked id and ends at a recorded root; the result is that path |
| `Revocation.RevokedAncestorBlocks` | src/karmasakshi/delegation/revocation.py:44-60 | with lineage immutable, a revoked ancestor fails the walk in every later store |
| `Revocation.UnrecordedAncestorBlocks` | src/karmasakshi/engine/core.py:132-136 | a walk that climbs to an id without a lineage row, as every root is unless someone else records it, never clears the grant, and says so iff the climb is within the bound, avoids the grant and meets no revoked id |
| `Revocation.UnrecordedRootBlocksAll` | src/karmasakshi/engine/core.py:132-136 | in a store with rows for delegated grants only, which is what the engine writes, no delegated grant is cleared |
| `CausalGraph.Validate` | src/karmasakshi/causal/graph.py:26-77 | accepts iff nodes and link ids are unique, endpoints are nodes, and there is no self-loop, no cycle and no path of more than 32 nodes; the depth of each node is the node count of the longest path ending there; names the failing condition, for a bad link that of the first in id order |
| `CausalGraph.SameGraph` | src/karmasakshi/causal/graph.py:36-42 | sorting the links changes neither the paths nor anything the validation decides |
| `CausalGraph.ReportIsOrderFree` | src/karmasakshi/causal/graph.py:37-42 | which bad link is reported does not depend on the order in which the links are given |
| `CausalGraph.Kahn` | src/karmasakshi/causal/graph.py:59-73 | the queue takes every node iff the graph has no cycle, and then the depths are longest-path lengths |
| `CausalGraph.FollowLinks` | src/karmasakshi/causal/graph.py:68-72 | following the links of one node keeps open-parent counts, queue and depths in step, parallel links included |
| `CausalGraph.Tabulate` | src/karmasakshi/causal/graph.py:45-57 | child lists and parent counts, or the fault of the first bad link |
| `CausalGraph.RootsReachEverything` | src/karmasakshi/causal/graph.py:82-84 | an accepted graph has a root, and every node that is not one has a root among its ancestors |
| `CausalGraph.AncestorsOf` | src/karmasakshi/causal/graph.py:86-100 | terminates and returns, sorted and without repetition, exactly the nodes with a non-empty path to the node, never the node itself |
| `JsonText.DecimalRoundTrip` | src/karmasakshi/canonical/serialize.py:58-62 | integers of any size and sign read back, whatever non-digit follows |
| `JsonText.QuoteRoundTrip` | src/karmasakshi/canonical/serialize.py:58-62 | strings of any Unicode scalars read back through short escapes, code units and surrogate pairs |
| `CanonicalJson.PrintParses` | src/karmasakshi/canonical/serialize.py:58-62 | the parser recovers every plain tree from its text |
| `CanonicalEquality.CanonicalTextParses` | src/karmasakshi/canonical/serialize.py:39-62 | the parser recovers exactly the key-sorted tree from the canonical text, with nothing left over |
| `CanonicalEquality.CanonicalTextHoldsTree` | src/karmasakshi/canonical/serialize.py:58-62 | what is read back is the tree itself up to entry order, and in every dictionary the keys ascend strictly by code point: a proper prefix first, or the smaller character at the first difference |
| `Ordering.LeqExactly` | src/karmasakshi/canonical/serialize.py:61 | the recursive comparison of strings decides the order of code points, said without recursion |
| `JsonText.EscapeExactly` | src/karmasakshi/canonical/serialize.py:58-62 | the text of every character: seven short escapes, printable ASCII as it is, and lower-case UTF-16 code units for the rest |
| `JsonText.DecimalExactly` | src/karmasakshi/canonical/serialize.py:58-62 | decimal notation digit by digit, the most significant first |
| `CanonicalJson.ListLayout` | src/karmasakshi/canonical/serialize.py:58-62 | lists print compactly, the parts in their order between commas |
| `CanonicalJson.DictLayout` | src/karmasakshi/canonical/serialize.py:58-62 | dictionaries print compactly, each key with a colon before its value |
| `CanonicalEquality.RefusedExactlyForForeignLeaves` | src/karmasakshi/canonical/serialize.py:39-55 | canonicalization is refused exactly when a float or a foreign object occurs somewhere in the tree |
| `CanonicalEquality.RefusalNamesLeaf` | src/karmasakshi/canonical/serialize.py:39-55 | the refusal names a leaf that is there: a float, or an object of a foreign type |
| `CanonicalEquality.EqualTextExactlyWhenSame` | src/karmasakshi/canonical/serialize.py:1-21 | two plain trees have equal canonical text iff they are equal up to dictionary insertion order at every depth |
| `CanonicalEquality.TextIsPrintable` | src/karmasakshi/canonical/serialize.py:11-15 | the text holds printable ASCII alone, so its UTF-8 bytes are its characters |
| `CanonicalEquality.HashIdentifiesTree` | src/karmasakshi/canonical/serialize.py:65-68 | with a collision-free digest equal canonical hashes mean equal trees up to insertion order, and conversely |
| `AuditChain.VerifyEventChain` | src/karmasakshi/audit/journal.py:43-74 | accepts exactly the valid chains, and otherwise complains about the first event out of place |
| `AuditChain.VerifyEventSelfConsistency` | src/karmasakshi/audit/journal.py:77-104 | accepts exactly the lists with right hashes and strictly increasing sequence numbers |
| `AuditChain.PrefixesAreValid` | src/karmasakshi/audit/journal.py:48-54 | every prefix of a valid chain is valid |
| `AuditChain.ExtensionIsValid` | src/karmasakshi/audit/journal.py:134-153 | a valid chain stays valid by the event that record builds on its tip, and by no other event of that content |
| `AuditChain.TipDeterminesJournal` | src/karmasakshi/audit/journal.py:1-7 | with a collision-free hash two valid chains with the same last hash are identical |
| `AuditChain.SlicesAreSelfConsistent` | src/karmasakshi/audit/journal.py:167-171 | every per-manifest slice of a valid chain passes the slice check |
| `AuditChain.SliceHashesDetermineSlice` | src/karmasakshi/audit/journal.py:77-90 | with a collision-free hash no embedded event of a slice can change under its hash |
| `AuditChain.EventsForManifest` | src/karmasakshi/audit/journal.py:167-168 | the events of one manifest, all of them and no other |
| `AuditBackends.TableListsInOrder` | src/karmasakshi/audit/sqlite_backend.py:54-66 | a table keyed 1 to n lists its rows in sequence order and its greatest key is the last event |
| `AuditBackends.HeldList` | src/karmasakshi/audit/redis_backend.py:66-80 | list and table answer alike: same events, same last event |
| `AuditBackends.GuardsExactly` | src/karmasakshi/audit/redis_backend.py:19-29 | the Redis script lets through only the next number, the SQLite key any number not yet taken |
| `AuditBackends.StaleIsRefused` | src/karmasakshi/audit/redis_backend.py:19-29 | both shared backends refuse every event numbered below the end of the list |
| `AuditJournals.AuditBackend.Append` | src/karmasakshi/audit/sqlite_backend.py:40-52 | on a store that stands for a list the next number lengthens the list by the event unless the medium fails to write, a taken number is refused by both shared stores and changes nothing, and a reported error hides a write only when the medium wrote and then failed |
| `AuditJournals.AuditJournal.Record` | src/karmasakshi/audit/journal.py:121-162 | an undisturbed record reports success iff neither call of the backend goes wrong, and has then lengthened the valid chain by the event it returns; a reported failure leaves the chain as it was, or longer by that event when the medium wrote and then failed, valid either way |
| `AuditJournals.AuditJournal.VerifyChain` | src/karmasakshi/audit/journal.py:170-171 | accepts iff the stored list is a valid chain |
| `AuditRuns.StoredChainIsAlwaysValid` | src/karmasakshi/audit/journal.py:134-162 | for any number of journals on one shared backend, with reading the tip and appending interleaved arbitrarily, the stored list always passes the full check |
| `AuditRuns.AppendWrittenExactlyWhenUndisturbed` | src/karmasakshi/audit/redis_backend.py:19-29 | an append is written if and only if the medium writes and the list is unchanged since that journal read its tip |
| `AuditRuns.StoredEventsStay` | src/karmasakshi/audit/sqlite_backend.py:1-8 | a stored event stays at its place for good |
| `AuditRuns.TableRefinesList` | src/karmasakshi/audit/sqlite_backend.py:20-25 | the same actions on the Redis list and on the SQLite table write the same events |
| `AuditRuns.MemoryChainValidExactlyWhen` | src/karmasakshi/audit/journal.py:25-36 | any number of journals over one in-memory list keep it a valid chain iff every append was made at the tip that its journal had read |
| `AuditRuns.SharedMemoryBreaksChain` | src/karmasakshi/audit/journal.py:25-36 | a run of two journals in which it is not |
| `Quorum.SelectAuthoritative` | src/karmasakshi/approval/quorum.py:62-83 | one statement is kept per approver, the first of its latest; the rest are listed as superseded |
| `Quorum.Screen` | src/karmasakshi/approval/quorum.py:115-131 | every statement survives or is rejected with its own reason, which QuorumConsent.SurvivesExactlyWhenGenuine pins for both kinds of statement |
| `Quorum.TallyVotes` | src/karmasakshi/approval/quorum.py:136-161 | counts, roles, hash and the satisfied flag with veto and cooling-off |
| `Quorum.EvaluateQuorum` | src/karmasakshi/approval/quorum.py:86-188 | the loops compute the decision function and the rejected list, and a batch beyond the limit is refused as a whole |
| `QuorumTheorems.WinnerIsLatest` | src/karmasakshi/approval/quorum.py:75-77 | the kept statement of a group is superseded by none of it |
| `QuorumTheorems.VotesAre` | src/karmasakshi/approval/quorum.py:136-143 | the votes of one kind are exactly the kept statements of that decision, in strictly ascending order of approver ids by code point, one per approver |
| `QuorumTheorems.OutcomeOfTheSet` | src/karmasakshi/approval/quorum.py:1-8 | when ties agree the decision depends on the set of statements alone: neither order nor extra copies change it |
| `QuorumTheorems.NoTiesAgree` | src/karmasakshi/approval/quorum.py:62-68 | ties agree whenever no two different survivors of one approver share signing time and statement id |
| `QuorumTheorems.OrderFreeExactlyWhenTiesAgree` | src/karmasakshi/approval/quorum.py:62-83 | with collision-free hashes the decision fields are the same for every order of submission if and only if tied latest statements of one approver agree on decision and, when approving, on payload |
| `QuorumRejected.RejectedOrderFree` | src/karmasakshi/approval/quorum.py:115-134 | the rejected statements are the same multiset for every order, with no condition on ties |
| `QuorumRejected.RejectedListsExactly` | src/karmasakshi/approval/quorum.py:62-83 | an id is listed with a reason iff one of its statements was refused for it, or as superseded iff its approver's kept statement has another id |
| `QuorumConsent.SatisfiedExactlyWhenMet` | src/karmasakshi/approval/quorum.py:145-161 | satisfied iff enough distinct approvers, every required role among them, no dissent where it vetoes, and the first approval old enough |
| `QuorumConsent.FieldsList` | src/karmasakshi/approval/quorum.py:136-149 | the approving and dissenting ids are the sorted lists of those voters, and the missing roles the sorted required roles that no approval holds |
| `QuorumConsent.SurvivesExactlyWhenGenuine` | src/karmasakshi/approval/quorum.py:27-59 | a statement, approving or dissenting, survives iff it is for this manifest and policy, by an eligible principal who is no agent, validly signed and not expired; and each reason is given exactly for the first of these that fails |
| `QuorumConsent.EveryVoteIsGenuine` | src/karmasakshi/approval/quorum.py:115-143 | every approving and every dissenting id of the outcome has a genuine last word on that side; nobody is on both; and whoever made a genuine statement is on one |
| `QuorumConsent.SetHashCovers` | src/karmasakshi/approval/quorum.py:145-149 | the approval set hash covers the sorted hashes of the approving statements without their signatures, one per approver |
| `QuorumConsent.SatisfiedQuorumIsGenuine` | src/karmasakshi/approval/quorum.py:27-59 | behind a satisfied quorum stand at least the required number of distinct eligible approvers, none an agent, whose latest valid statement approves |
| `QuorumConsent.LaterCopyChangesNothing` | src/karmasakshi/approval/quorum.py:62-83 | an extra copy after the original never changes the decision |
| `QuorumConsent.InvalidChangesNothing` | src/karmasakshi/approval/quorum.py:128-131 | a rejected statement changes nothing wherever it stands |
| `QuorumConsent.MoreConsentKeepsSatisfied` | src/karmasakshi/approval/quorum.py:151-161 | a valid approval by an approver not yet present never turns satisfied into unsatisfied, cooling-off included |
| `QuorumConsent.TieDecidedByOrder` | src/karmasakshi/approval/quorum.py:75-77 | two statements with one id signed in one instant, one for and one against: the one submitted first decides |
| `Constraints.NarrowingSoundExactly` | src/karmasakshi/envelope/constraints.py:235-303 | across all pairs of kinds a value accepted by a narrower constraint is accepted by the wider one, except exactly a boolean under a range |
| `Constraints.BooleanEscapesNarrowing` | src/karmasakshi/envelope/constraints.py:146-175 | the exception occurs: the constant 1 narrows a range and accepts True |
| `Constraints.NarrowingReflexive` | src/karmasakshi/envelope/constraints.py:235-303 | narrowing is reflexive |
| `Constraints.NarrowingTransitiveExactly` | src/karmasakshi/envelope/constraints.py:235-303 | narrowing chains, except exactly from a boolean constant to a range |
| `Constraints.BooleanBreaksTransitivity` | src/karmasakshi/envelope/constraints.py:239-246 | a chain that fails: True, 1, a range |
| `Constraints.IntRangesExact` | src/karmasakshi/envelope/constraints.py:306-316 | for integer ranges the check is exactly inclusion of the accepted values |
| `Constraints.EnumsExact` | src/karmasakshi/envelope/constraints.py:253-261 | for enums the check is exactly inclusion of the accepted values |
| `Constraints.MoneyRangesExact` | src/karmasakshi/envelope/constraints.py:319-333 | for monetary ranges the check is currency and inclusion, less an open end against a bound the amount type implies |
| `Constraints.Sample` | src/karmasakshi/envelope/constraints.py:65-144 | every well-formed constraint accepts a value that is not a boolean |
| `Envelope.WindowLiesInside` | src/karmasakshi/envelope/model.py:350-353 | a narrower envelope is effective only while the wider one is |
| `Envelope.FitsExactly` | src/karmasakshi/envelope/model.py:205-273 | what fitting means, condition by condition |
| `Envelope.EnvelopeNarrowerExactly` | src/karmasakshi/envelope/model.py:276-353 | what narrowing means, dimension by dimension |
| `Envelope.FitsParentExactly` | src/karmasakshi/envelope/model.py:205-273 | a manifest that fits the child fits the parent iff it brings no key unknown to a strict parent and no boolean under a parent's range |
| `Envelope.NarrowingSoundExactlyWhen` | src/karmasakshi/envelope/model.py:276-353 | narrowing is sound for every manifest without booleans if and only if the child adds no key or the parent tolerates unknown keys |
| `Envelope.AddedKeyEscapesParent` | src/karmasakshi/envelope/model.py:335-341 | the smallest pair of envelopes on which narrowing is not sound |
| `Envelope.EnvelopeReflexive` | src/karmasakshi/envelope/model.py:276-353 | envelope narrowing is reflexive |
| `Envelope.EnvelopeTransitiveExactly` | src/karmasakshi/envelope/model.py:276-353 | envelope narrowing chains iff no key pairs a range of the outermost with a boolean constant of the innermost |
| `Substitution.SubstituteParameters` | src/karmasakshi/envelope/substitution.py:39-70 | succeeds iff every key can be filled and no choice is unknown, and otherwise reports unknown choices or the first faulty key in sorted order |
| `Substitution.ResolvedIsComplete` | src/karmasakshi/envelope/substitution.py:46-70 | the result has exactly the constrained keys, with accepted values |
| `Substitution.ResolvedHonoursChoices` | src/karmasakshi/envelope/substitution.py:49-62 | the result equals every choice made |
| `Substitution.ResolvedFits` | src/karmasakshi/envelope/model.py:232-257 | the result passes the parameter part of the envelope's fit check |
| `Substitution.SubstitutionIdempotent` | src/karmasakshi/envelope/substitution.py:39-70 | substituting the result again gives the result |
| `Substitution.ImageExactly` | src/karmasakshi/envelope/substitution.py:46-70 | the results are exactly the complete accepted assignments that carry the very constant of every exact constraint |
| `Substitution.ImageWithoutBooleans` | src/karmasakshi/envelope/substitution.py:46-70 | away from booleans the results are exactly the complete accepted assignments |
| `Substitution.MissingKeysStop` | src/karmasakshi/envelope/substitution.py:82-96 | reported missing keys stop the substitution, and empty choices suffice iff every constraint is exact |
| `Delegation.NarrowerTransitive` | src/karmasakshi/delegation/attenuation.py:70-109 | attenuation chains on every dimension |
| `Delegation.NarrowerExactly` | src/karmasakshi/delegation/attenuation.py:19-109 | the check passes iff the child permits no use that the parent does not, grants no more uses and keeps the parent's budget |
| `Delegation.AcceptedChainNarrows` | src/karmasakshi/delegation/chain.py:35-56 | in an accepted chain every grant is narrower than all before it |
| `Delegation.LeafPermitsOnlyWhatAllPermit` | src/karmasakshi/delegation/chain.py:1-8 | the leaf of an accepted chain permits only what every grant above permits |
| `Delegation.WindowInherited` | src/karmasakshi/grants/verifier.py:30-47 | the time-window check of a narrower grant implies that of the wider one, leeway included |
| `Delegation.WindowExactly` | src/karmasakshi/grants/verifier.py:30-47 | the window check passes iff now lies in the window widened by the leeway on both sides |
| `Delegation.ChainAcceptedExactly` | src/karmasakshi/delegation/chain.py:35-56 | a chain is accepted iff it is linked and narrowing from a root, every signature is good, none is revoked, and the leaf alone is inside its window |
| `Delegation.DelegateNeverWidens` | src/karmasakshi/engine/core.py:1142-1184 | delegate never issues a grant that permits more, never for an agent issuer, and always when everything is inherited |
| `Delegation.DelegatedHolds` | src/karmasakshi/engine/core.py:1142-1164 | field by field: the child holds every value the call gives, and the parent's where it gives none |
| `Delegation.DelegateGrantedExactly` | src/karmasakshi/engine/core.py:1142-1184 | a call is granted iff its issuer is no agent, every value given is well formed and no wider than the parent's, and the resulting window is not empty |
| `Delegation.DelegatedChainNarrows` | src/karmasakshi/engine/core.py:1142-1184 | any run of successful delegate calls yields a list on which all pairwise checks pass |
| `Delegation.DelegatedChainAccepted` | src/karmasakshi/delegation/chain.py:35-56 | such a list is accepted iff the signatures are good, none is revoked and the leaf is inside its window |
| `DelegationLineage.DelegatedWalkExactly` | src/karmasakshi/delegation/revocation.py:33-71 | on the rows that delegation leaves, the walk clears the leaf and returns its ancestors nearest first iff the root was recorded, the chain is not too deep and no ancestor is revoked |
| `DelegationLineage.DelegatedGrantIsCleared` | src/karmasakshi/engine/core.py:132-136 | from end to end: after any run of successful delegate calls with their rows recorded, the walk of the last grant clears it under exactly those conditions |
| `DelegationBindings.InheritedExactlyWhenRepeated` | src/karmasakshi/engine/core.py:1139-1164 | a child that names no manifest can never be committed with; it is met wherever its parent is iff the parent names none or the proposal repeats it; the parent is met wherever the child is iff the child names none, or repeats it and the parent names no policy, envelope or graph |
| `DelegationBindings.LostBindingNeverCommits` | src/karmasakshi/engine/core.py:1233-1240 | when the proposal leaves the manifest out, every commit with the child, of any manifest in any run, ends at the checks with nothing reserved |
| `RowAdapter.SQLiteRowAdapter.PrepareManifest` | src/karmasakshi/adapters/sqlite_db.py:108-151 | records the balance and the version found, or version 0 |
| `RowAdapter.SQLiteRowAdapter.Commit` | src/karmasakshi/adapters/sqlite_db.py:183-245 | the statement takes effect iff it touches exactly the row of its version within the ceiling, and is rolled back otherwise |
| `RowAdapter.SQLiteRowAdapter.Compensate` | src/karmasakshi/adapters/sqlite_db.py:269-318 | an update gets its previous balance back under a new version, an insert is removed, a delete is not undone |
| `RowTable.VersionsOnlyRise` | src/karmasakshi/adapters/sqlite_db.py:208-215 | while a row stays its version never falls, and an equal version means an untouched row |
| `RowTable.WriteRaisesVersion` | src/karmasakshi/adapters/sqlite_db.py:299-316 | every write to a row that stays raises its version |
| `RowTable.UpdateCommitsExactlyWhenUntouched` | src/karmasakshi/adapters/sqlite_db.py:108-151 | an update prepared against an existing row commits iff the row, not deleted since, is untouched, and so only at the balance its manifest recorded |
| `RowTable.UpdateCommitsAtMostOnce` | src/karmasakshi/adapters/sqlite_db.py:208-235 | an update that has committed does not commit again while the row stays |
| `RowTable.OnlyOneCommitSucceeds` | src/karmasakshi/adapters/sqlite_db.py:208-235 | over a whole run on a row that stays at most one commit of an update succeeds |
| `RowTable.ReinsertionDefeatsVersion` | src/karmasakshi/adapters/sqlite_db.py:192-199 | with deletion the guarantee is lost: for every row and every balance a run of delete, insert and updates lets the old update commit at that balance |
| `RowTable.CompensationRestoresBalance` | src/karmasakshi/adapters/sqlite_db.py:299-316 | compensating a committed update at once restores the balance, two versions later |
| `RowTable.CompensationAfterOtherWrites` | src/karmasakshi/adapters/sqlite_db.py:305-316 | after any other writes, compensation puts the recorded balance back over whatever is there; the row is then what immediate compensation leaves iff it was untouched since the commit, and the others' changes to the balance are kept iff there were none |
| `RowTable.CompensationOverwritesLaterUpdate` | src/karmasakshi/adapters/sqlite_db.py:305-316 | a later update that committed is lost, whatever it wrote |
| `RowTable.CompensatedInsertUndoes` | src/karmasakshi/adapters/sqlite_db.py:287-298 | a compensated insert leaves the table as it was |
| `RowTable.CommitExactly` | src/karmasakshi/adapters/sqlite_db.py:183-245 | when each of the three statements takes effect and what it leaves: the given balance at version 0, the given balance one version up, or no row; nothing else moves |
| `RowTable.RefusalsExactly` | src/karmasakshi/adapters/sqlite_db.py:153-245 | why a commit does not succeed, each answer iff its cause, and that the check before it is satisfied iff the commit succeeds |

## Left out

- Ed25519, SHA-256, base64, key files and keyrings: library cryptography; signatures are a predicate, hashes are functions.
- Routes, gateway, sessions, CLI, console, workspace files and scripts: input and output.
- Passports, evidence packs, evidence quality, observability, adapter registry, duties, tenants, witnesses, policy bundles and the email sandbox: record assembly and lookups that would only add easy members.
- The saga machine and the compensation operations of the engine: their lifecycle moves are covered by `Transit`, their effects are not.
- Seeding a lifecycle state from the journal (src/karmasakshi/engine/core.py:151-168): it writes the store without a compare-and-set, and the results about runs assume it is not used.
- SQLite and Redis variants of the grant, lifecycle and outbox stores: the model uses their common interface and the in-process implementations.
- An engine without a lifecycle store: only the configuration with a shared lifecycle store is modelled.
- Engine.KarmaSakshiEngine.Admit: the seal, signature, window, policy, envelope, graph and adapter checks of commit are one fault that denies the call, because none of them touches a store.
- Engine.KarmaSakshiEngine.Transition: the history list of a lifecycle record and the audit events of blocked transitions are not modelled; a blocked transition raises either way.
- Engine.KarmaSakshiEngine.RecordIntent: every raise of the outbox is taken for one of the two kinds that commit catches (src/karmasakshi/engine/core.py:1510); an exception of any other kind is not modelled.
- DelegationBindings.InheritedExactlyWhenRepeated: compares hashes only; that the policy bundle, envelope and graph behind them verify is not part of it.
- Quorum.EvaluateQuorum: the human-readable reason text is not modelled.
- CanonicalJson.PrintParses: dictionaries with keys that are not strings, and strings with lone surrogates, are not modelled.
- Delegation.DelegateNeverWidens: the commit path never reads the scope of a grant, so scope is a statement about delegation only.
- Envelope.FitsParentExactly: an amount outside the range of the amount type is a refusal like any other, where the code lets the type's own error through.
- Length limits, identifier patterns, datetime parsing and audit metadata strings: taken as validated inputs.
