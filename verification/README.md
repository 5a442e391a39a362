# Settlement model of the x402 facilitator

The facilitator settles HTTP 402 payments on NEAR and on EVM chains. It journals each settlement in PostgreSQL, signs one
transaction for it, journals the signed bytes, marks the row submitted and only then broadcasts. After a crash or an
ambiguous answer a recovery pass replays exactly the journaled bytes, or finishes the row on evidence from two independent
nodes. This project models that engine and the decisions it relies on, and proves what they keep over every run.

`dafny verify dfyconfig.toml` checks everything; there are no dependencies outside this directory.

## How the model is laid out

| files | what they hold |
|---|---|
| `Journal.dfy` | the settlement table, one function per SQL transaction, and the constraints that every transaction keeps |
| `Settlement.dfy` | workers, recovery passes, processes, crashes and store failures as one step function `Do`; a run is `Execute` |
| `SettlementSafety.dfy` | theorems over every run of any number of processes, stale leaders and late writes included |
| `SettlementOutcome.dfy` | why a row may be recorded as succeeded or failed, over the same runs |
| `SettlementProvenance.dfy` | where the bytes of every send come from, and that they were priced first |
| `Traces.dfy`, `SettlementPath.dfy` | induction over the log of a run; which checks precede every send, replay and quarantine |
| `SettlementFence.dfy`, `SettlementProgress.dfy` | what a closed reconciliation gate stops and what closes it; how soon the relayer lock is given back |
| `SettlementCompletes.dfy`, `RecoveryCompletes.dfy` | where a worker and a recovery pass arrive when nothing interferes |
| `SettlementExclusion.dfy` | what the gate and the lock of one process mean in every run, exactly, in terms of the foreign rows |
| `SettlementRefusal.dfy` | exactly when a worker's refusal is recorded over a transaction in flight |
| `SettlementSolo.dfy` | the intended deployment, in which no row is foreign, as corollaries |
| `Scenes.dfy`, `StaleLeader.dfy`, `LateWrite.dfy` | concrete runs from the empty journal in which the plain promises fail |
| `ExactlyOnce.dfy`, `EndToEnd.dfy` | the engine composed with the chain's nonce and expiry rules, and with its readers |
| `Graphs.dfy`, `Receipts.dfy`, `ReceiptTheorems.dfy` | the NEAR receipt-graph validator and what its verdict means |
| `NearReaders.dfy`, `NearChain.dfy` | verdicts from two NEAR lookups; the nonce and expiry decision against a chain of blocks |
| `EvmReaders.dfy`, `EvmFees.dfy`, `EvmBinding.dfy`, `EvmLibrary.dfy` | two-reader EVM reconciliation, fee bounds, binding of stored bytes to a row, and a library that meets the laws assumed there |
| `Sponsorship.dfy`, `LedgerJournal.dfy` | the daily and per-client budget ledgers, and that they follow the journal |
| `Decimal.dfy`, `CanonicalJson.dfy`, `JsonIdentity.dfy` | digit-string comparison, canonical JSON, and the fingerprint preimage |
| `RateLimiter.dfy`, `Readiness.dfy` | the request limiter and the readiness cells |

Choices a reader should know:

- A task runs up to its next await point in one step. Everything the outside world may do is in the step: which task runs,
  what a node answers, whether a gate other than reconciliation is ready, and how a store call ends. A store call may run
  and be acknowledged, never run, run without its caller learning so, or be given up on and still run at any later time.
- Chain verdicts, node heads and the exact-byte check enter the engine as free answers, so its theorems hold for any
  answers. What those answers mean is proved in the NEAR and EVM files.
- Each externally visible act is logged with the journal as it stood at that instant.
- Where a comment and the code disagree, the model follows the code. The EVM recovery comments speak of one node, while
  the provider merges two (`crates/x402-chain-eip155-provider/src/provider.rs:1694-1745`). The receipt validator has a
  token-failure error that can never be returned (`DefinitiveFailuresAreReal`).

Some promises do not hold in every run. Call a row *foreign* to a process if its bytes were journaled by another process,
or by a store write that landed after its caller gave up on it (`SettlementExclusion.Foreign`). Then, in every run:

- behind a ready gate and a free lock nothing is in flight if and only if every foreign row has finished (`ReadyIsQuiet`);
  `LateWriteBreaksReadyMeansQuiet` is a run in which one has not;
- a step overwrites a settlement in flight with a refusal if and only if it commits the refusal of a worker to whose
  process the row is foreign and unfinished, or lands a refusal that was given up on (`RefusalOverwritesExactly`);
  `StaleLeaderFailsSubmittedRow` and `LateRefusalFailsSubmittedRow` are runs of the two kinds, the second by one process
  to which nothing is foreign. Without them, a settlement with bytes finishes only on an answer about its transaction
  (`SentRowsFinishOnChainEvidence`);
- a worker about to sign finds bytes already journaled if and only if its row is foreign (`SignatureIsClean`);
  `StaleLeaderSignsOverBroadcast` is such a run, and `SupersededBytesAreNeverSent` shows that those new bytes never leave.

Two promises on NEAR fail if one of the two nodes lies, where the EVM side keeps its own (`TerminalIsPermanent`):

- a terminal verdict is the verdict on what the chain holds, with either node lying, if and only if both nodes gave a
  final outcome (`SafeExactlyWhenBothFinal`); in `LoneFinalIsBelieved` one node forges an outcome, the other honestly
  knows nothing, and the settlement succeeds although nothing is on chain. The answer to a NEAR broadcast is likewise
  that of one node;
- an expiry is sound, with either node lying, if and only if both heights reached the end of the delegated action
  (`ExpirySafeExactlyWhenBothPast`), while the code asks only for the larger; in `LoneHeightExpiresLiveRow` a lying
  height expires a row that the other node truly sees alive and that is then paid.

A readiness check that overlaps a loss of leadership may pass although the gates were never ready together:
`TornCheckPasses` is such a history, and `PassIsInstantExactly` says exactly when a passing check means all four are ready.

## Model

| member | source | states |
|---|---|---|
| Journal.ApplyKeepsTable | crates/x402-near-facilitator/src/store.rs:615-1298 | every journal transaction, accepted or refused, keeps the row shapes, one row per payment anchor, one row per signer nonce and one active EVM row, never rewrites stored bytes and never changes a finished row; a refused one changes nothing |
| Journal.SetRow | migrations/0003_retry_anchors.sql:76-190 | a single row write keeps every table constraint under the index conditions the database checks for that row |
| Journal.ChangesFollowEdges | crates/x402-near-facilitator/src/store.rs:861-1298 | a transaction changes at most its own row and only along an edge of the state diagram, and a new row is always a reservation |
| Journal.EdgesAreTaken | crates/x402-near-facilitator/src/store.rs:861-1298 | every edge is taken by its transaction unless the signer-slot or nonce index forbids it, and the row then holds the bytes, response and marks of that call |
| Journal.RepeatedOutcome | crates/x402-near-facilitator/src/store.rs:1193-1298 | on a finished row a terminal write is acknowledged exactly for the same response, and changes nothing |
| SettlementSafety.StepPreserves | crates/x402-near-facilitator/src/service.rs:1862-2842 | each step of any worker or recovery pass of any process keeps what every other task believes about the journal |
| SettlementSafety.RunPreserves | crates/x402-near-facilitator/src/service.rs:1862-2842 | the same over a whole run, which only ever moves rows forward |
| SettlementSafety.OneTransactionPerSettlement | crates/x402-near-facilitator/src/service.rs:1933-2060 | any two sends for one settlement, first or replayed, by whichever process, carry the identical transaction |
| SettlementSafety.DistinctSettlementsDistinctNonces | migrations/0001_initial.sql:144-156 | sends for two settlements never compete for one signer nonce, and the settlements have different anchors |
| SettlementSafety.WriteAhead | crates/x402-near-facilitator/src/service.rs:1933-2171 | at the instant of every send the row already held exactly these bytes and its submission had been recorded by `mark_submitted`, also if it has finished since |
| SettlementSafety.ReplayOnlyAfterUnknownInOrder | crates/x402-near-facilitator/src/service.rs:2417-2657 | a replay follows a scan of the journal, a release attempt of every row that scan found reserved, the byte check and an unknown verdict, all of the same pass, and every row in flight there that the scan lists earlier, hence every older one, has finished |
| SettlementSafety.QueryOnlyAfterReleases | crates/x402-near-facilitator/src/service.rs:2417-2477 | the chain is asked about a row only for journaled bytes that passed the check, after a release attempt of every row the pass's scan found reserved, and once every row in flight there that the scan lists earlier, hence every older one, has finished |
| SettlementSafety.EarlierMeansOlder | crates/x402-near-facilitator/src/store.rs:805-814 | since the scan is complete and in creation order, finishing the rows listed before one finishes everything in flight that is older |
| SettlementSafety.SignsAfterCleanReload | crates/x402-near-facilitator/src/service.rs:1898-1932 | every signature, of any process, EVM ones dropped before they are journaled included, is by a worker whose own reload saw that row reserved and without bytes |
| SettlementSafety.SupersededBytesAreNeverSent | crates/x402-near-facilitator/src/store.rs:1072-1107 | bytes signed while the row already journals other bytes are never sent for that settlement, before or after, by any process |
| SettlementSafety.DormantRowsCarryNoBytes | crates/x402-near-facilitator/src/store.rs:861-1025 | a reserved or dormant row never carries signed bytes, so resuming it cannot orphan a transaction |
| SettlementSafety.FinishedForever | crates/x402-near-facilitator/src/store.rs:1193-1298 | once terminal, a row and its stored response are the same after every continuation |
| SettlementSafety.OneActiveEvmSettlement | migrations/0003_retry_anchors.sql:176-182 | on EVM at most one row per network and signer is reserved, prepared or submitted in any reachable state, whatever the processes do; dormant rows own no signer |
| SettlementOutcome.FinishedOnEvidence | crates/x402-near-facilitator/src/service.rs:2214-2400 | a row that finished during a run has state and response exactly as some logged answer about it says: of a send, a query or a head read, of verification, or of its own reload for a mismatch, and it is marked as refused exactly in the last two cases; a first EVM broadcast can reject but never confirm |
| SettlementOutcome.SuccessIsOfJournaledTransaction | crates/x402-near-facilitator/src/service.rs:2996-3095 | a recorded success rests on a logged report of success for the very transaction the row journals |
| SettlementOutcome.StepJustified | crates/x402-near-facilitator/src/service.rs:2481-2842 | every step keeps that tasks, rows and outstanding writes are backed by evidence |
| SettlementProvenance.SendsWereSigned | crates/x402-near-facilitator/src/service.rs:1943-2060 | every send of every run carries bytes signed for that very settlement earlier in the run, unless the run started with them journaled or with their journaling outstanding |
| SettlementProvenance.JournaledWasPriced | crates/x402-near-facilitator/src/service.rs:1961-1980 | on EVM, in every run and with any late write, bytes that the run journaled have a logged L1 estimate, for that settlement and those bytes, that fits the reservation with the largest L2 fee |
| SettlementProvenance.JournaledFeeStaysReserved | crates/x402-near-facilitator/src/service.rs:2173-2187 | hence a transaction journaled by the run overruns its reservation, or overflows, only if its L1 fee passed the estimate logged for exactly its bytes |
| SettlementPath.BroadcastsAreCleared | crates/x402-near-facilitator/src/service.rs:1862-2171 | every first broadcast follows, in this order and by the same worker, an open entry gate, an accepted verification, a matching reread of the reserved row and the signature of these bytes, and every later gate and nonce check of that worker passed |
| SettlementPath.ReplaysAreCleared | crates/x402-near-facilitator/src/service.rs:2562-2842 | every replay passed the leadership checks and the second look at the nonce of its own pass, and on NEAR its heads were read as usable after that pass judged the transaction unknown |
| SettlementPath.OverrunQuarantinesFirst | crates/x402-near-facilitator/src/service.rs:2996-3095 | on EVM a pass about to finish a row has quarantined the signer for every fee overrun it was told of |
| SettlementPath.ScansAreLed | crates/x402-near-facilitator/src/service.rs:2417-2437 | every recovery scan is by a pass that found itself leader |
| Traces.EveryRunTraced | crates/x402-near-facilitator/src/service.rs:1862-2842 | facts about tasks, and about events and the log before them, that every task step keeps hold in every run of any processes |
| SettlementProgress.HolderFinishes | crates/x402-near-facilitator/src/service.rs:1862-2842 | in any run a lock holder given more steps of its own than its rank is gone and does not hold the lock |
| SettlementProgress.PassGivesLockBack | crates/x402-near-facilitator/src/service.rs:2417-2477 | a pass that loaded `n` rows gives the lock back within `22 * n + 25` of its own steps, whatever the store, the nodes and other tasks do |
| SettlementProgress.WorkerGivesLockBack | crates/x402-near-facilitator/src/service.rs:1862-2060 | a worker that took the lock gives it back within sixteen of its own steps |
| SettlementFence.ClosedGateStopsSends | crates/x402-near-facilitator/src/service.rs:1962-2060 | from any state, while a process's gate stays closed and no worker had passed its last check, the process makes no first broadcast |
| SettlementFence.BadNewsClosesGate | crates/x402-near-facilitator/src/service.rs:1985-2171 | from any state, once a worker or pass has an unacknowledged write, a failed check, an unresolved send, an undecided or conflicting verdict, a moved nonce or a fee overrun, its next step closes the gate, whatever other tasks and processes did in between |
| SettlementCompletes.WorkerSettles | crates/x402-near-facilitator/src/service.rs:1862-2171 | a worker alone with a reserved row brings the journal exactly where its answers say: released, refused, failed, succeeded or submitted, with the gate closed exactly in the last case, and touches no other row |
| SettlementCompletes.ReachedByRun | crates/x402-near-facilitator/src/service.rs:1862-2842 | what a task reaches alone is reached by a run of the whole system that runs only this task |
| RecoveryCompletes.RowEnds | crates/x402-near-facilitator/src/service.rs:2481-2842 | a row in flight whose end the nodes tell, at once, by expiry or through a replay, is recorded with exactly that end and the pass goes on |
| RecoveryCompletes.PassSettlesEverything | crates/x402-near-facilitator/src/service.rs:2417-2477 | a pass alone that is told how every row in flight ended releases every reservation, records exactly what it was told for each row, leaves all other rows alone and opens the gate, for any number of rows |
| RecoveryCompletes.RecoveryOpensGate | crates/x402-near-facilitator/src/service.rs:2417-2477 | the same as a run of the whole system from any state with that pass at its scan |
| SettlementExclusion.ReadyIsQuiet | crates/x402-near-facilitator/src/service.rs:2417-2477 | every run, any processes and late writes: behind a ready gate and a free lock no row is in flight if and only if every foreign row has finished |
| SettlementExclusion.RefusalIsQuiet | crates/x402-near-facilitator/src/service.rs:2290-2331 | every run: at the instant before a worker writes its refusal, that row is in flight if and only if it is foreign and unfinished, and nothing is in flight if and only if all foreign rows have finished |
| SettlementRefusal.RefusalOverwritesExactly | crates/x402-near-facilitator/src/store.rs:1193-1298 | every run, every step: a refusal takes a settlement out of flight if and only if the step commits the refusal of a worker to whose process the row is foreign and unfinished, or lands an abandoned refusal while the row is in flight |
| SettlementRefusal.StepRefuses | crates/x402-near-facilitator/src/service.rs:2290-2331 | a row becomes refused if and only if a refusal of it commits or lands and the journal admits it, and its bytes stay as they are |
| SettlementRefusal.RefusedRowsAreBare | crates/x402-near-facilitator/src/service.rs:2290-2331 | one process whose abandoned prepares and refusals do not land late: rows it refuses carry no bytes |
| SettlementRefusal.SentRowsFinishOnChainEvidence | crates/x402-near-facilitator/src/service.rs:2214-2400 | in such a run a settlement that carries bytes and finishes does so on the answer to a send, a query or a head read, never on a refusal |
| SettlementExclusion.SignatureIsClean | crates/x402-near-facilitator/src/service.rs:1898-1960 | every run: a worker about to sign finds bytes on its row if and only if the row is foreign |
| SettlementExclusion.SendIsAlone | crates/x402-near-facilitator/src/service.rs:2030-2060 | every run: at a first broadcast whatever else is in flight is foreign |
| SettlementExclusion.OneOwnInFlight | crates/x402-near-facilitator/src/service.rs:1862-2060 | every run: if at most one settlement was in flight at the start, at most one that is not foreign ever is, also on NEAR where no index enforces it |
| SettlementExclusion.RunsKeep | crates/x402-near-facilitator/src/service.rs:1862-2842 | the lock and gate discipline those five rest on holds after every step of every run |
| SettlementSolo.NothingForeign | crates/x402-near-facilitator/src/leadership.rs:226-292 | if no other process runs a task and no abandoned prepare lands late, no row is foreign |
| SettlementSolo.ReadyMeansQuiet | crates/x402-near-facilitator/src/service.rs:2417-2477 | in such a run a ready gate with a free lock means no row is prepared or submitted, whatever the journal was at boot |
| SettlementSolo.AtMostOneInFlight | crates/x402-near-facilitator/src/service.rs:1862-2060 | in such a run at most one settlement is ever in flight if at most one was at boot |
| SettlementSolo.SignsOnlyCleanReservations | crates/x402-near-facilitator/src/service.rs:1898-1960 | in such a run a signature is made only for a row without bytes and only while nothing is in flight |
| SettlementSolo.RejectsOnlyWhenQuiet | crates/x402-near-facilitator/src/service.rs:2290-2331 | in such a run nothing is in flight at the instant before a worker writes a refusal; a refusal that lands late is another matter |
| StaleLeader.StaleLeaderFailsSubmittedRow | crates/x402-near-facilitator/src/service.rs:1898-1932 | two processes reach, from the empty journal and with no store error, a settlement that was broadcast and is then marked failed by the mismatch branch of a stale worker |
| StaleLeader.StaleLeaderSignsOverBroadcast | crates/x402-near-facilitator/src/service.rs:1933-1960 | two processes reach, likewise, a signature of new bytes for a settlement that was broadcast with other bytes |
| LateWrite.LateRefusalFailsSubmittedRow | crates/x402-near-facilitator/src/store.rs:1235-1243 | from the empty journal one process, to which nothing is foreign, reaches a settlement whose broadcast is the last event and that is recorded as failed by a refusal it had given up on |
| LateWrite.LateWriteBreaksReadyMeansQuiet | crates/x402-near-facilitator/src/store.rs:1072-1107 | from the empty journal one process, whose abandoned prepare lands late, reaches a ready gate and free lock with a transaction in flight |
| ExactlyOnce.IncludedAtMostOncePerSettlement | crates/x402-near-facilitator/src/service.rs:2562-2657 | over any run and any valid chain, no two included transactions were sent for the same settlement, however often bytes were replayed |
| ExactlyOnce.IncludedForOneSettlement | migrations/0001_initial.sql:144-156 | one included transaction was sent for one settlement only |
| ExactlyOnce.ReplayedWhileAlive | crates/x402-near-facilitator/src/service.rs:2562-2657 | on NEAR, if usable heads were decided from two views of a valid chain, every replay follows a read, in its own pass, of a chain that can still go on to run that transfer |
| ExactlyOnce.ExpiredRowNeverTransfers | crates/x402-near-facilitator/src/service.rs:2562-2613 | if every expiry of a run was decided from two views of a valid chain for the journaled signer and nonce, a row on which recovery read an expiry never transfers its journaled transaction on any continuation |
| EndToEnd.SucceededNearRowWasPaid | crates/x402-near-facilitator/src/chain.rs:425-541 | if the answers behind each final report were read as the provider reads them, and both nodes were honest or both final and one honest, then for a row recorded as succeeded the chain holds an outcome of exactly the journaled transaction that shows the transfer |
| EndToEnd.FailedNearRowFailedOnChain | crates/x402-near-facilitator/src/chain.rs:425-541 | likewise a row that failed on a final report has on chain an outcome of exactly the journaled transaction that shows a failure |
| EndToEnd.SucceededEvmRowIsHeld | crates/x402-near-facilitator/src/chain.rs:542-567 | likewise an EVM row recorded as succeeded is on the canonical chain as a success of the transaction it journals, given one truthful reader and bounded reorganisations |
| EndToEnd.FailedEvmRowIsHeld | crates/x402-near-facilitator/src/chain.rs:542-567 | likewise an EVM row that failed on a final report is on the canonical chain as a failure of the transaction it journals |
| Receipts.ById | crates/x402-chain-near/src/receipt.rs:126-136 | succeeds exactly when receipt ids are distinct, and then indexes exactly those receipts |
| Receipts.TraverseMeaning | crates/x402-chain-near/src/receipt.rs:213-230 | the search ends in a clean set closed under children, or exhibits a reachable receipt that is missing, failed or undecided |
| Receipts.Search | crates/x402-chain-near/src/receipt.rs:213-230 | the queue loop computes that search |
| Receipts.CountIndegrees | crates/x402-chain-near/src/receipt.rs:232-245 | in-degrees are the number of edges from visited receipts, repeated edges counted |
| Receipts.CountSorted | crates/x402-chain-near/src/receipt.rs:232-269 | Kahn's count equals the number of visited receipts exactly when the visited graph has no cycle |
| Receipts.CollectTokenChildren | crates/x402-chain-near/src/receipt.rs:201-211 | lists the direct children that ran on the asset contract, repetitions kept |
| Receipts.OneTokenChild | crates/x402-chain-near/src/receipt.rs:201-211 | that list has one entry exactly when one position of the child list ran on the asset contract, and then it is that child |
| Receipts.InterpretFinalOutcome | crates/x402-chain-near/src/receipt.rs:150-283 | the validator with its loops returns the specified verdict, error cases included |
| Graphs.NoSourceMeansCycle | crates/x402-chain-near/src/receipt.rs:232-269 | a finite non-empty graph in which every node has a parent contains a cycle |
| Graphs.OrderedMeansAcyclic | crates/x402-chain-near/src/receipt.rs:232-269 | a listing with parents first excludes every cycle |
| ReceiptTheorems.SearchIsReachability | crates/x402-chain-near/src/receipt.rs:213-230 | a successful search returns exactly what the delegate receipt reaches, all of it clean |
| ReceiptTheorems.SearchStopsAtFirst | crates/x402-chain-near/src/receipt.rs:213-230 | the search fails with an error exactly when the first receipt of the breadth-first walk that is not clean says so |
| ReceiptTheorems.AcceptsExactlyTransfers | crates/x402-chain-near/src/receipt.rs:150-283 | the validator returns a transfer if and only if the outcome shows that transfer: complete, free of failures and cycles, run by the payer, with one direct token receipt of that id and value |
| ReceiptTheorems.DefinitiveFailuresAreReal | crates/x402-chain-near/src/receipt.rs:107-116 | a definitive failure is on record in the outcome with the same text, a reported cycle exists, and the token-failure error never arises |
| ReceiptTheorems.FailsExactlyOnFailures | crates/x402-chain-near/src/receipt.rs:150-283 | the validator reports a definitive failure with a text if and only if the first thing wrong in the outcome is a recorded failure with that text: of the final status, the transaction, the delegate receipt or the first unclean receipt of the walk |
| ReceiptTheorems.OrderOfOutcomesIsIrrelevant | crates/x402-chain-near/src/receipt.rs:126-136 | the verdict is the same for every order in which a node lists the receipts |
| NearReaders.InterpretNearFinal | crates/x402-near-facilitator/src/chain.rs:1403-1441 | the identity check and the validator together compute the specified interpretation |
| NearReaders.ReconcileLookups | crates/x402-near-facilitator/src/chain.rs:491-541 | the two-lookup decision computes the specified status, failover mark included |
| NearReaders.SucceedsExactlyOnTransfer | crates/x402-near-facilitator/src/chain.rs:482-567 | success if and only if the one final outcome on record is of the prepared transaction and shows the transfer |
| NearReaders.FailsOnlyOnRecordedFailure | crates/x402-near-facilitator/src/chain.rs:482-567 | a terminal failure rests on a recorded failure of the prepared transaction |
| NearReaders.FailsExactlyOnFailure | crates/x402-near-facilitator/src/chain.rs:482-567 | a terminal failure if and only if the one final outcome on record is of the prepared transaction and a failure is the first thing wrong with it |
| NearReaders.UndecidedExactly | crates/x402-near-facilitator/src/chain.rs:491-541 | without a final outcome, pending if and only if a node still has it in progress, ambiguous if and only if otherwise a lookup failed |
| NearReaders.LookupsAreInterchangeable | crates/x402-near-facilitator/src/chain.rs:1463-1465 | swapping the nodes changes no verdict; unknown if and only if both lack it, conflict if and only if two final outcomes differ |
| NearReaders.SafeExactlyWhenBothFinal | crates/x402-near-facilitator/src/chain.rs:503-540 | a terminal verdict is right whatever the chain holds, with either node lying, if and only if both nodes gave a final outcome |
| NearReaders.LoneFinalIsBelieved | crates/x402-near-facilitator/src/chain.rs:503-540 | one forged outcome next to an honest node that knows nothing yields a terminal success with nothing on chain |
| NearChain.IncludedAtMostOnce | crates/x402-near-facilitator/src/service.rs:2562-2613 | the access-key nonce rule includes a signer and nonce at most once |
| NearChain.ExpiryIsSound | crates/x402-near-facilitator/src/service.rs:2562-2613 | once recovery expires a row from two pinned reads, no continuation of the chain runs its transfer |
| NearChain.ExpirySafeExactlyWhenBothPast | crates/x402-near-facilitator/src/service.rs:2562-2613 | an expiry excludes the transfer on every chain that either reading alone is true of, if and only if both heights reached the end |
| NearChain.LoneHeightExpiresLiveRow | crates/x402-near-facilitator/src/service.rs:2562-2613 | for every transaction, one node that overstates its height by one expires a row that the other node truly sees alive and that is paid in the next block |
| NearChain.RebroadcastOnlyWhileAlive | crates/x402-near-facilitator/src/service.rs:2562-2613 | a row is replayed only while some continuation of the later view still runs its transfer |
| NearChain.QuarantineMeansUsed | crates/x402-near-facilitator/src/service.rs:2571-2593 | a key is quarantined if and only if a view shows its nonce reached, and then some included transaction of that signer did use it or a later one |
| NearChain.UnpinnedReadsWouldBeUnsound | crates/x402-chain-near/src/provider.rs:378-397 | for every reading one block short of the end there is a chain on which height and nonce from different blocks would expire a paid row |
| EvmReaders.TerminalExactlyWhenBothAttest | crates/x402-chain-eip155-provider/src/provider.rs:1694-1745 | a verdict is terminal if and only if each reader separately shows the same facts before and after its own head at the required depth, and the two transaction observations agree on nonce and block where both have them |
| EvmReaders.StricterNeverFinishes | crates/x402-chain-eip155-provider/src/provider.rs:805-835 | lower heads or more required confirmations never make another verdict terminal |
| EvmReaders.UnknownExactlyWhenBothLackIt | crates/x402-chain-eip155-provider/src/provider.rs:837-859 | unknown if and only if neither reader has a receipt or the transaction and both heads are usable |
| EvmReaders.MergesExactly | crates/x402-chain-eip155-provider/src/provider.rs:574-628 | two transaction observations merge if and only if one lacks it or nonces, and blocks if both are mined, are equal; the result is missing exactly if both lack it and pending exactly if one is |
| EvmReaders.ReceiptsMergeExactly | crates/x402-chain-eip155-provider/src/provider.rs:554-572 | receipts conflict exactly if both are mined with different facts, and merge to mined or absent exactly if both are |
| EvmReaders.ShallowExactly | crates/x402-chain-eip155-provider/src/provider.rs:805-835 | mined with some depth if and only if both readers show the same facts before and after heads on this chain, and the lower head gives exactly that depth, below the required one |
| EvmReaders.ErrsExactly | crates/x402-chain-eip155-provider/src/provider.rs:1694-1745 | an error if and only if a read failed, a head is of another chain, the readers contradict each other, or the lower head is behind the receipt |
| EvmReaders.ReadersAreInterchangeable | crates/x402-chain-eip155-provider/src/provider.rs:554-628 | swapping the readers changes neither which inputs are errors nor any verdict |
| EvmReaders.TerminalIsPermanent | crates/x402-chain-eip155-provider/src/provider.rs:1694-1745 | if either reader was truthful and reorganisations are shallower than the required depth, an accepted outcome stays on the canonical chain |
| EvmReaders.ReceiptThenHeadIsNotEnough | crates/x402-chain-eip155-provider/src/provider.rs:837-859 | without the second receipt read a truthful receipt and a deep head do not give that |
| EvmFees.FeeStaysReserved | crates/x402-near-facilitator/src/service.rs:2173-2187 | a transaction journaled after the liability check overruns its reservation, or overflows, only if its L1 fee passed the estimate |
| EvmFees.HardStopSurvives | crates/x402-near-facilitator/src/service.rs:320-338 | a funded signer that stays within the reservation keeps its hard-stop balance as both readers see it |
| EvmFees.HeadroomIsExact | crates/x402-near-facilitator/src/config.rs:399-497 | an accepted configuration admits exactly the L1 estimates up to the headroom, and the headroom is positive |
| EvmFees.EnvelopeIsUsable | crates/x402-chain-eip155-provider/src/provider.rs:775-799 | a priced envelope is within the cap, well formed, undercuts no reader and is the same for swapped readers |
| EvmFees.PricesExactly | crates/x402-chain-eip155-provider/src/provider.rs:775-799 | the envelope carries exactly the larger of the two fees and of the two priority fees, an estimate is invalid exactly if a reader names no fee or a priority above it, and the cap is exceeded exactly if a valid estimate passes it |
| EvmFees.ReceiptFeeIsCost | crates/x402-chain-eip155-provider/src/provider.rs:927-946 | the fee of a receipt is gas times price plus the L1 fee, or none if that does not fit 128 bits |
| EvmFees.FundedExactly | crates/x402-near-facilitator/src/service.rs:320-338 | a signer counts as funded if and only if every fee within the reservation would leave the hard-stop balance |
| EvmBinding.SignThenValidate | crates/x402-chain-eip155-provider/src/prepare.rs:278-306 | bytes signed for a payment under the fee policy validate against the row journaled for them and decode to the same facts |
| EvmBinding.CallRoundTrip | crates/x402-chain-eip155-provider/src/prepare.rs:594-640 | the token call decodes to the authorization it was built from, in the overload its signature class asks for |
| EvmBinding.BytesBindOneRow | crates/x402-chain-eip155-provider/src/prepare.rs:489-592 | one byte string accepted for two rows means one hash, signer, nonce, token and authorization, hence one anchor |
| EvmBinding.AcceptedBytesPayTheRow | crates/x402-chain-eip155-provider/src/prepare.rs:489-592 | accepted bytes encode a call that carries exactly the row's authorization and payment hash, send no native value and pay at most the cap |
| EvmBinding.OnlySignedBytesAccepted | crates/x402-chain-eip155-provider/src/prepare.rs:489-592 | with distinct hashes for distinct envelopes, the only bytes accepted for a row are the ones signed for it |
| EvmLibrary.LawfulLibrary | crates/x402-chain-eip155-provider/src/prepare.rs:594-640 | the codec, recovery, classifier and hash laws assumed of the libraries can be met together, by a library that tells signers and payments apart and uses both signature classes |
| Sponsorship.PostPreserves | crates/x402-near-facilitator/src/store.rs:1753-1841 | every ledger operation keeps both ledgers equal to the sums over the rows and never reports corruption |
| Sponsorship.ReservesExactly | crates/x402-near-facilitator/src/store.rs:1753-1802 | a claim or resumption goes through if and only if its row admits it and reserved, spent and new amount fit both limits; then exactly the accounts of that day and client rise by exactly that amount and the row carries it, and otherwise nothing changes |
| Sponsorship.SettlesExactly | crates/x402-near-facilitator/src/store.rs:1804-1841 | a release or outcome goes through if and only if the row admits it, takes exactly the row's reservation off exactly its accounts and adds exactly what was paid, nothing on release |
| Sponsorship.LedgersBalance | crates/x402-near-facilitator/src/store.rs:1804-1841 | after any run each account equals its open reservations and the cost of its finished settlements, resumed on other days included |
| Sponsorship.ReleaseNeverFails | crates/x402-near-facilitator/src/store.rs:1804-1841 | after any run no operation can fail for a missing or too small account |
| Sponsorship.BudgetHolds | crates/x402-near-facilitator/src/store.rs:1753-1802 | promised and paid money exceeds a fixed daily or client limit by no more than what settlements cost beyond their reservations |
| LedgerJournal.OnlyBudgetStops | crates/x402-near-facilitator/src/store.rs:615-1298 | what the journal accepts the ledgers accept too and the states stay equal, except that a claim or resumption may pass the budget |
| LedgerJournal.JournalLedgersBalance | crates/x402-near-facilitator/src/store.rs:1753-1841 | after any sequence of transactions the ledgers' rows have the journal's states, so each account equals the reservations of its active rows and the cost of its finished ones |
| Decimal.CompareIsNumeric | crates/x402-near-facilitator/src/protocol.rs:668-676 | comparing digit strings of any length, with any leading zeros, is comparing the numbers |
| Decimal.AtLeastBothWaysIsEquality | crates/x402-near-facilitator/src/service.rs:1921-1922 | the two-way check of a journaled amount is numeric equality |
| Decimal.PrintRoundTrip | crates/x402-near-facilitator/src/protocol.rs:678-715 | printed naturals are digit strings that denote the number printed |
| CanonicalJson.KeysInOrder | crates/x402-near-facilitator/src/protocol.rs:678-715 | the collected keys are the one increasing listing, whatever order the map yields |
| CanonicalJson.OneSortedListing | crates/x402-near-facilitator/src/protocol.rs:678-715 | a set of keys has a single increasing listing |
| CanonicalJson.WriteCanonical | crates/x402-near-facilitator/src/protocol.rs:678-715 | the recursive writer appends the canonical text of the value |
| JsonIdentity.CanonicalTextIdentifies | crates/x402-near-facilitator/src/protocol.rs:678-715 | two values have the same text if and only if they are equal, objects taken as maps |
| JsonIdentity.TextDelimited | crates/x402-near-facilitator/src/protocol.rs:678-715 | a canonical text followed by a delimiter determines the value and the rest |
| JsonIdentity.PreimageIdentifies | crates/x402-near-facilitator/src/protocol.rs:450-461 | fingerprint inputs coincide if and only if request and payment hash do |
| JsonIdentity.HasherInput | crates/x402-near-facilitator/src/protocol.rs:450-461 | the three hasher updates feed exactly that input |
| RateLimiter.Limiter.Check | crates/x402-near-facilitator/src/service.rs:3114-3132 | the answer and the new window of the key follow the specification, and no other key changes |
| RateLimiter.SlidingWindowBound | crates/x402-near-facilitator/src/service.rs:3114-3132 | over any sixty seconds a key gets at most `2 * limit - 1` admissions, none for limit zero |
| RateLimiter.BoundIsReached | crates/x402-near-facilitator/src/service.rs:3114-3132 | for every positive limit some history reaches that bound, so one window's limit is no sliding limit |
| RateLimiter.KeysAreIndependent | crates/x402-near-facilitator/src/service.rs:3103-3106 | a key's window, and how many calls of any sixty seconds it has admitted, depend on that key's calls alone |
| Readiness.Gates.SetGate | crates/x402-near-facilitator/src/leadership.rs:166-181 | one cell is written, the others keep their value, and a change is reported exactly when there is one |
| Readiness.Gates.SetLeadership | crates/x402-near-facilitator/src/leadership.rs:147-152 | losing leadership closes reconciliation too, in a second write |
| Readiness.Gates.CanSettle | crates/x402-near-facilitator/src/leadership.rs:183-195 | without interference the check passes exactly when the four gates are ready |
| Readiness.LossNeedsFreshWrites | crates/x402-near-facilitator/src/leadership.rs:147-152 | a check begun after a completed loss passes only if leadership and reconciliation were both written ready after it, whatever else is interleaved |
| Readiness.PassIsInstantExactly | crates/x402-near-facilitator/src/leadership.rs:183-195 | a passing check ends with all four gates ready if and only if each gate that closed after its own load reopened before the end |
| Readiness.TornCheckPasses | crates/x402-near-facilitator/src/leadership.rs:183-195 | otherwise it may pass although they were ready together at no instant |

## Left out

- SettlementOutcome.FinishedOnEvidence: assumes no write of an earlier life is still outstanding at the start, because its evidence would lie before the log.
- ExactlyOnce.ExpiredRowNeverTransfers: the expiry height of journaled bytes is a parameter, since decoding them is not modelled on NEAR.
- NearChain.ExpiryIsSound: concerns this relayer's transaction; a payer could hand the same delegated action to another relayer.
- EvmReaders.TerminalIsPermanent: assumes a bound on reorganisation depth and one truthful reader.
- EvmBinding.OnlySignedBytesAccepted: assumes that the transaction hash does not collide.
- EvmBinding.SignThenValidate: encoders, hashes, signatures and the payer-signature classifier are parameters with stated laws; addresses are already typed, and the selector test is part of the ABI decoder.
- EvmFees.FeeStaysReserved: assumes what the chain enforces, gas used within the limit and price within the signed maximum.
- Sponsorship.BudgetHolds: amounts are unbounded naturals, so the width of the SQL numeric column is not modelled.
- JsonIdentity.PreimageIdentifies: SHA-256 is not modelled; a float is represented by its shortest round-trip text.
- RateLimiter.SlidingWindowBound: the 32-bit saturation of the counter is unreachable below the limit and not modelled.
- Receipts.CountSorted: counters are unbounded where the code saturates at the machine word.
- RecoveryCompletes.PassSettlesEverything: assumes acknowledged store calls and nodes that tell every outcome; that such answers ever come is up to the nodes and the scheduler.
- EndToEnd.FailedNearRowFailedOnChain: a row may also fail on a rejected send, an expiry or a refusal, about which the readers say nothing.
- Rendering a terminal response is taken to succeed, and the branches for a wrongly wired chain kind are absent.
- Claim lookup by payment identifier and fingerprint, HTTP handlers, API keys, metrics and version 1 wire compatibility would add only easy members.
- Parsing of raw RPC responses, gas cost sums and retry helpers are answers of the environment here.
- Configuration shape checks other than the EVM fee headroom, the asset catalog, secret files and the admin tool are not modelled.
