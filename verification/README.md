# Verified models of the swap clients

This project models the parts of the swap clients that decide when money may move and what must be
remembered so that it is not lost, and proves what they keep: the Boltz swap manager, the
Arkade-to-Bitcoin atomic swap, the readers that conclude something from partial indexer answers,
the offer codec, offer coverage, the refund and claim engine, the receive-leg gates, the stored RFQ
records and the status channel of one swap.

`dafny verify dfyconfig.toml` checks everything. Each module stands for one component:

| module | component |
|---|---|
| `SwapMachine`, `SwapLaws`, `SwapManager`, `StrandedExample` | the Boltz `SwapManager`: one swap as a machine whose steps are the stretches between two awaits, what each step does in plain statuses and numbers, the object over many swaps with its runs, and runs that show why the conditions are needed |
| `OnchainSend` | the funding gates, the claim gate and the two-chain hash-timelock protocol they make |
| `LockupFate`, `RefundUnresolved` | what became of a lockup; asking first and then taking it back |
| `Restore` | the incremental restore scan over partial answers |
| `OfferCodec` | the offer TLV parser and printer |
| `Coverage` | the queues and marks that decide which offer scripts are watched |
| `RecoveryScan`, `RefundLoop`, `ClaimGuard`, `Locktime` | the refund and claim engine of `ArkadeSwaps` |
| `ReceiveLeg`, `JsNumber` | the receive-leg gates over every JavaScript number |
| `RfqRecord` | what is stored of a live RFQ swap and what a restart rebuilds |
| `MonitorSwap` | the status channel: socket, polling and one promise |
| `Common` | optional values and results |

Concurrency is a run of atomic steps in any order, one step for each stretch of code between two
awaits. A method over mutable state is proved equal to a step of such a machine, and the
properties over whole runs are lemmas about the machine. Beside them stand laws that say in plain
statuses, fields and numbers what each decision is, without calling the function that makes it.
Answers of the outside (indexer, server, solver, clock, callbacks) are arbitrary parameters unless a
lemma states what it assumes of them.

Ten things a reader of the code might not expect came out of the proofs:

- A refund that is owed can be left with nothing driving it until the next start, although the record
  still carries its retry. A status handler turned away by the per-swap lock finalizes the swap while
  the action that holds the lock may still defer (`StrandedExample.LockSkippedHandlerStrands`), and a
  status polled for a swap that has already left the monitored set is handled, and its refund deferred,
  all the same (`StrandedExample.LateUpdateStrands`). `SwapMachine.StrandsIff` says for every step
  exactly when it does this, and `SwapMachine.NeverLeftBehindIff` lifts that to whole runs.
- The next start finds it unless the swap leaves the monitored set for good before the connection
  attempt ends: through a handler still in flight from before the stop
  (`StrandedExample.RestartArmsNothing`), an update to a final status or a forced expiry meanwhile.
  Then nothing is armed (`SwapMachine.RestartArmsOneTimerIff`).
- `readLockupFate` binds a transaction by an id that does not commit to its witness: a claim that
  comes back stripped reads as `returned` (`LockupFate.StrippedWitnessReadsAsReturned`), and
  `LockupFate.ReturnedIsSoundIff` says exactly when the answer can be trusted.
- A `claimed` answer is not bound to any spender the outputs name: a returned transaction nobody named
  that shows the preimage over a listed output is enough (`LockupFate.JunkReadsAsClaimed`).
- `assertFundable` on its own accepts a quote whose deadlines are `NaN`
  (`OnchainSend.GateAloneAcceptsNaN`); the derivation before it is what refuses them. Nothing
  refuses a `NaN` in `valid_until` on that leg (`OnchainSend.ExpiryNeedsANumber`).
- On the receive leg no `NaN` gets through, but an infinite price does when the decoder agrees and
  no ceiling is asked for, although the comment in packages/swap/src/rfq.ts:310-313 says the
  infinities fail closed (`ReceiveLeg.InfinitePricePasses`, `ReceiveLeg.PriceIsFiniteIff`).
- `monitorSwap` forwards a status twice in a row when one outside the closed set arrived between
  (`MonitorSwap.RepeatsIff`), and a callback that throws on a terminal status leaves the channel
  open (`MonitorSwap.TerminalSettlesIff`).
- The restore scan records the deposit of a want-asset offer as BTC when its only rider is not attached
  yet, and never looks again (`Restore.DepositReadIff`, `Restore.LateRiderReadsAsBtc`).
- A claim on L1 that does not confirm within the claim margin can lose both sides
  (`OnchainSend.SlowConfirmationCanLoseBoth`).
- On the Arkade-to-Bitcoin leg nothing compares the fill with the payout that was quoted before the claim
  reveals the preimage: a fill that leaves the 330 sat dust limit after the fee takes the lockup
  (`OnchainSend.WorthItIffGated`, `OnchainSend.DustTakesLockupIff`).

## Model

| member | source | states |
|---|---|---|
| SwapMachine.OneActionInFlight | packages/boltz-swap/src/swap-manager.ts:1135-1285 | in every run at most one action per swap is in flight, and the lock is held exactly while it is, so a call the lock turned away never releases it |
| SwapMachine.ForcedExpiryEarned | packages/boltz-swap/src/swap-manager.ts:1562-1711 | in every run a 404-forced expiry comes only after ten counted answers with no restart of the count between them, and never over an armed retry timer |
| SwapMachine.DeferredRefundIsDurable | packages/boltz-swap/src/swap-manager.ts:1057-1087 | in every interleaving, crashes included, a deferred refund stays on the stored record with the second it was scheduled for, until an attempt settles it or the swap is removed |
| SwapMachine.RestartArmsOneTimerIff | packages/boltz-swap/src/swap-manager.ts:422-453 | from any state before a start, over any steps between the start and the end of its connection attempt: the swap is monitored at once even in a final status, and its retry is armed again as exactly one timer, never early and less than a second late unless the instant has passed, if and only if no step between took the swap off the monitored set for good; otherwise nothing is armed |
| SwapMachine.MonitoredAfterRun | packages/boltz-swap/src/swap-manager.ts:422-453 | after any run a swap is monitored if and only if it was, or was put back, and no step took it off for good |
| SwapMachine.NoStrandedRefund | packages/boltz-swap/src/swap-manager.ts:944-1016 | in every calm run, handlers turned away by the lock included, a swap whose refund is owed is monitored and has a timer armed, an action in flight or a handler running |
| SwapMachine.NotCalmBreaks | packages/boltz-swap/src/swap-manager.ts:944-1016 | a step that is not calm breaks what keeps a due refund served, drops it or ends the retry, and a late update does so in every state, so calm asks for no more than its account needs |
| SwapMachine.StrandsIff | packages/boltz-swap/src/swap-manager.ts:944-1016 | for every step from any state with nothing left behind, calm or not: an owed refund is left with nothing driving it if and only if the step is a finalization while it is owed, a deferral or another action's end for a swap nothing else drives, or a connection or late update of an unmonitored one |
| SwapMachine.NeverLeftBehindIff | packages/boltz-swap/src/swap-manager.ts:944-1016 | in every run an owed refund is never left behind at any point if and only if no step of the run is such a step |
| SwapMachine.UncoversIff | packages/boltz-swap/src/swap-manager.ts:979-992 | after a calm run a step that starts and ends with the refund owed leaves it uncovered if and only if a handler or timer callback finishes on a final status with no retry armed |
| SwapMachine.InvStep | packages/boltz-swap/src/swap-manager.ts:1080-1285 | every step keeps the lock, timer, action and deferral invariants |
| SwapMachine.CountStep | packages/boltz-swap/src/swap-manager.ts:1617-1711 | every step keeps the 404 counter equal to the streak of counted answers in its log |
| SwapMachine.ServedStep | packages/boltz-swap/src/swap-manager.ts:944-1016 | every calm step keeps a deferred refund served |
| SwapLaws.ActionStartsIff | packages/boltz-swap/src/swap-manager.ts:1135-1285 | in plain statuses: with the lock free, a handler, timer or start that acts puts exactly one action in flight, and its first phase is claim, Ark claim, refund or co-signature if and only if kind, sides, status, preimage and invoice call for that one |
| SwapLaws.StartActsIff | packages/boltz-swap/src/swap-manager.ts:1455-1492 | a start calls an action for a monitored swap with no retry armed exactly in the claimable, refundable and co-signable statuses, and it then starts one when there is a preimage or an invoice to act with |
| SwapLaws.LockTurnsAway | packages/boltz-swap/src/swap-manager.ts:1135-1140 | while the lock is held no step but the action's own changes what is in flight or frees it |
| SwapLaws.MonitoredIff | packages/boltz-swap/src/swap-manager.ts:944-1035 | for every step, exactly when the swap is monitored after it, with the closing statuses of each kind written out and the tenth 404 counted |
| SwapLaws.RefundAnswerStores | packages/boltz-swap/src/swap-manager.ts:1038-1087 | a refund is put on record to be tried again if and only if it deferred or a chain swap's threw: at the time it gave, no sooner than 60 s and no later than an hour, in 60 s without one, as the whole second at or after; else the record is cleared |
| SwapLaws.ActionGoesOn | packages/boltz-swap/src/swap-manager.ts:1089-1124 | a saved retry leaves exactly one timer, its full delay from then; any other end of an action frees the lock, readies its own caller and touches no timer; an Ark claim that worked goes on to the co-signature |
| SwapLaws.TimerFires | packages/boltz-swap/src/swap-manager.ts:1094-1122 | a timer fires only when due, is gone then, and does nothing for a stopped manager, an unmonitored swap or a held lock |
| SwapLaws.ConnectedArms | packages/boltz-swap/src/swap-manager.ts:1063-1073 | a monitored swap's stored second is armed as the one timer at that second, at once if it has passed and within an hour, and nothing else is touched |
| SwapLaws.StopAndRemoveCancel | packages/boltz-swap/src/swap-manager.ts:459-575 | a stop and a removal leave no timer; a stop restarts the count; a removal clears the stored retry of a monitored swap only |
| SwapLaws.UpdateStores | packages/boltz-swap/src/swap-manager.ts:944-978 | a new status is stored with the rest of the record as it was and one handler waits for it; a repeated one only restarts the count |
| SwapLaws.SavedGoesOn | packages/boltz-swap/src/swap-manager.ts:976-992 | a handler whose save is done has returned unless it started an action or auto actions are off |
| SwapLaws.FinishedKeeps | packages/boltz-swap/src/swap-manager.ts:983-1016 | a handler or timer callback that ends changes nothing but its own turn and the monitored set |
| SwapLaws.RefundDueIff | packages/boltz-swap/src/swap-manager.ts:1184-1262 | a refund is owed in exactly the statuses in which one is called for |
| SwapLaws.RemovalEnds | packages/boltz-swap/src/swap-manager.ts:555-575 | the count restarts only once the removal is saved |
| SwapLaws.CrashKeepsTheStore | packages/boltz-swap/src/swap-manager.ts:422-453 | a new process holds what was stored, unmonitored, with no timer, lock or count |
| SwapLaws.NotFoundCounts | packages/boltz-swap/src/swap-manager.ts:1617-1711 | over an armed timer a 404 does nothing; the first nine only count; the tenth in a row stores a monitored swap as expired, with its retry, and takes it off the set |
| StrandedExample.LockSkippedHandlerStrands | packages/boltz-swap/src/swap-manager.ts:979-991 | a run from the initial state in which a deferred refund is left with nothing driving it in this process, while the record still carries it |
| StrandedExample.LateUpdateStrands | packages/boltz-swap/src/swap-manager.ts:1562-1570 | a run in which a status polled after the swap left the monitored set makes a refund attempt that defers, with nothing left to drive it |
| StrandedExample.RestartArmsNothing | packages/boltz-swap/src/swap-manager.ts:442-453 | a run in which a handler in flight across a stop and a start finalizes the swap before the connection attempt ends, so its deferred refund is not armed |
| StrandedExample.ForcedExpiryDrops | packages/boltz-swap/src/swap-manager.ts:1617-1711 | a calm run in which ten 404 answers expire a swap whose retry found nothing to refund, leaving its deferred refund due and undriven |
| SwapManager.ProjectRun | packages/boltz-swap/src/swap-manager.ts:422-453 | for every id, a run of the manager over all its swaps is a run of the one-swap machine |
| SwapManager.RunGoesOn | packages/boltz-swap/src/swap-manager.ts:422-453 | whatever is possible after a run of the manager goes on with it |
| SwapManager.EverySwapLocked | packages/boltz-swap/src/swap-manager.ts:1135-1285 | in every run of the manager no swap has two actions in flight and each lock is its own action's |
| SwapManager.EveryDeferralDurable | packages/boltz-swap/src/swap-manager.ts:1057-1087 | in every run of the manager, crashes and changes of configuration included, every deferred refund is on its own stored record |
| SwapManager.EveryExpiryEarned | packages/boltz-swap/src/swap-manager.ts:1617-1711 | in every run of the manager a 404 expires a swap only on ten counted answers in a row for that swap |
| SwapManager.EverySwapServed | packages/boltz-swap/src/swap-manager.ts:944-1016 | in every run of the manager a swap whose own part was calm has its owed refund driven, whatever befell the others |
| SwapManager.NoSwapLeftBehindIff | packages/boltz-swap/src/swap-manager.ts:944-1016 | in every run of the manager a swap's owed refund is never left behind if and only if none of its own steps strands it, whatever befell the others |
| SwapManager.EverySwapRearmed | packages/boltz-swap/src/swap-manager.ts:422-453 | after any run of the manager a start and the end of its connection attempt arm every refund that stays deferred as its own one timer, except exactly the swaps taken off the monitored set for good in between, whose timers stay as they were |
| SwapManager.SwapManager.MovedHappened | packages/boltz-swap/src/swap-manager.ts:422-453 | a method that moves one swap as a step of the machine is that step of the manager's run |
| SwapManager.SwapManager.AllMovedHappened | packages/boltz-swap/src/swap-manager.ts:422-500 | a method that moves every swap is that step of the manager's run |
| SwapManager.SwapManager.Restarted | packages/boltz-swap/src/swap-manager.ts:422-453 | a new process over the stored swaps is the crash step of the manager's run |
| SwapManager.SwapManager.constructor | packages/boltz-swap/src/swap-manager.ts:422-453 | the manager begins with every stored swap unmonitored and idle |
| SwapManager.SwapManager.ArmRefundRetryTimer | packages/boltz-swap/src/swap-manager.ts:1089-1124 | the old timer is cancelled and exactly one new one is held; every other swap is unchanged |
| SwapManager.SwapManager.FinalizeMonitoredSwap | packages/boltz-swap/src/swap-manager.ts:1000-1016 | a monitored swap leaves the set and loses its timer; every other swap is unchanged |
| SwapManager.SwapManager.ExecuteAutonomousAction | packages/boltz-swap/src/swap-manager.ts:1135-1180 | takes the lock and starts the action of `SwapLaws.ActionStartsIff`, answers false when the lock is held; every other swap is unchanged |
| SwapManager.SwapManager.ActionResumes | packages/boltz-swap/src/swap-manager.ts:1146-1285 | an action goes on exactly as the machine says: retry scheduled, retry cleared, timer armed or lock released |
| SwapManager.SwapManager.RefundAnswered | packages/boltz-swap/src/swap-manager.ts:1170-1262 | a deferral schedules a retry, nothing deferred clears it, a throw clears a submarine swap's and reschedules a chain swap's |
| SwapManager.SwapManager.ScheduleRefundRetry | packages/boltz-swap/src/swap-manager.ts:1080-1087 | the pending retry, rounded up to a second, is on the stored record before the timer is armed |
| SwapManager.SwapManager.HandleSwapStatusUpdate | packages/boltz-swap/src/swap-manager.ts:944-978 | the 404 count restarts, and a new status is stored before the handler goes on |
| SwapManager.SwapManager.StatusSaved | packages/boltz-swap/src/swap-manager.ts:979-992 | the handler's action call starts, is skipped or is turned away by the lock as the machine says |
| SwapManager.SwapManager.ActionReturned | packages/boltz-swap/src/swap-manager.ts:983-992 | a final swap is finalized unless a retry timer is armed |
| SwapManager.SwapManager.RetryTimerFires | packages/boltz-swap/src/swap-manager.ts:1094-1122 | a fired timer leaves the map first, and acts only for a monitored swap of a running manager |
| SwapManager.SwapManager.HandleSwapNotFound | packages/boltz-swap/src/swap-manager.ts:1617-1629 | no count while a retry timer is armed; the tenth counted answer forces expiry |
| SwapManager.SwapManager.MarkSwapAsUnknownToProvider | packages/boltz-swap/src/swap-manager.ts:1641-1711 | the swap is stored as expired and leaves the monitored set; its stored retry stays |
| SwapManager.SwapManager.RemoveSwap | packages/boltz-swap/src/swap-manager.ts:555-575 | timer and stored retry are cleared for a monitored swap, which leaves the set |
| SwapManager.SwapManager.StartAll | packages/boltz-swap/src/swap-manager.ts:422-448 | every swap moves by the start step: monitored when not final or when a retry is pending |
| SwapManager.SwapManager.ResumePersistedRefundRetries | packages/boltz-swap/src/swap-manager.ts:1063-1073 | every monitored swap with a pending retry gets exactly one timer, and no other swap changes |
| SwapManager.SwapManager.StopAll | packages/boltz-swap/src/swap-manager.ts:459-495 | every swap loses its timer and its 404 count |
| OnchainSend.SolverNeverKeepsBoth | packages/swap/src/onchainHtlc.ts:416-440 | with an arbitrary solver and claims that confirm within the margin, in every run no fill the user claimed goes back to the solver, and a solver that took the lockup has given the user a fill |
| OnchainSend.SolverHasTimeToClaim | packages/swap/src/rfq.ts:396-427 | in every such run a confirmed claim leaves the solver more than 7200 s before the lockup's refund opens |
| OnchainSend.LockupMoves | packages/swap/src/onchainHtlc.ts:416-440 | the lockup is funded once, and claimed only over a broadcast, returned, or refunded past its locktime |
| OnchainSend.LockupSettlesOnce | packages/swap/src/onchainHtlc.ts:416-440 | in every run whoever got the lockup keeps it, and until someone does the user can take it back once its locktime is past |
| OnchainSend.SlowConfirmationCanLoseBoth | packages/swap/src/onchainHtlc.ts:416-440 | from any fundable quote, a run without the confirmation assumption in which the solver takes the lockup and the fill |
| OnchainSend.AnyFillTakesLockup | packages/swap/src/onchainHtlc.ts:416-440 | from any fundable quote and for any amount that passes the claim's own floor, a run in which the solver takes the lockup for a fill of that amount |
| OnchainSend.WorthItIffGated | packages/swap/src/onchainHtlc.ts:416-440 | for every fundable quote and every floor a claim could ask of a fill: a solver that took the lockup has in every run with claims that confirm in time given a fill worth the payout, if and only if the floor is at least the payout |
| OnchainSend.DustTakesLockupIff | packages/swap/src/onchainHtlc.ts:262-271 | with the one floor the code has, the dust limit after the fee, the lockup can go for less than the payout if and only if the payout is more than that |
| OnchainSend.RequestPassesIff | packages/swap/src/rfq.ts:371-427 | over every JavaScript number: a request passes if and only if both deadlines and the confirmations are finite, the L1 one a timestamp, 1 to 6 confirmations, more than 600 s for each plus 5400 s before it, the refund at least 7200 s after it and 5400 s away, and `valid_until` ahead, infinite or `NaN` |
| OnchainSend.RefusalIsTrue | packages/swap/src/rfq.ts:371-427 | every refusal's reason is really the case, in plain integers |
| OnchainSend.FirstReason | packages/swap/src/rfq.ts:371-427 | of a quote whose numbers are all there, the reason is the first check that fails |
| OnchainSend.PassedRequestIsFinite | packages/swap/src/rfq.ts:1256-1310 | a request that passes has finite deadlines in order, confirmations in range and room to confirm and claim |
| OnchainSend.GateAloneAcceptsNaN | packages/swap/src/rfq.ts:371-427 | with `NaN` deadlines the gate alone passes and the whole request refuses |
| OnchainSend.ExpiryNeedsANumber | packages/swap/src/rfq.ts:371-427 | a request that passes is unexpired if and only if `valid_until` is a number |
| OnchainSend.RefundablePhaseRefusesClaim | packages/swap/src/onchainHtlc.ts:469-495 | with median-time-past not ahead of the clock, a refundable reading always makes the claim refuse |
| OnchainSend.ReadingMeans | packages/swap/src/onchainHtlc.ts:469-495 | each reading holds exactly of its chain: nothing seen, a spend with or without the preimage, or a largest output that lacks confirmations, has them before its refund opens, or after |
| OnchainSend.ClaimRefusedIff | packages/swap/src/onchainHtlc.ts:429-436 | a claim is refused if and only if less than 5400 s are left before the L1 refund |
| OnchainSend.ExtractPreimage | packages/swap/src/onchainHtlc.ts:362-375 | returns a 32-byte witness item that hashes right, and nothing exactly when no stack holds one |
| OnchainSend.Largest | packages/swap/src/onchainHtlc.ts:469-495 | the reading is about a listed output no other exceeds |
| LockupFate.ReadLockupFate | packages/swap/src/refund.ts:392-464 | each answer means what it says of the listed outputs and transactions: open, claimed with a shown preimage, returned with every spend named and observed and none showing it, or unknown for a stated lack |
| LockupFate.NameSpends | packages/swap/src/refund.ts:404-428 | an unspent output is found exactly when there is one; otherwise every named spend is collected with its ark transaction |
| LockupFate.FindPreimage | packages/swap/src/refund.ts:444-458 | finds a witness item that hashes right in an input of a listed output, exactly when there is one |
| LockupFate.ClaimedIsSound | packages/swap/src/refund.ts:392-464 | claimed carries an item hashing to the payment hash, and whatever else came back some listed output was really spent with it as long as every returned transaction that shows a preimage over a listed output has an id that output names |
| LockupFate.ReturnedIsSoundIff | packages/swap/src/refund.ts:392-464 | returned, with arbitrary junk among the answers, implies every listed output was spent, and none of them with a right preimage if and only if every true witness item that hashes right came back in its named spender |
| LockupFate.JunkReadsAsClaimed | packages/swap/src/refund.ts:435-459 | an output that was refunded reads as claimed when a transaction no output names shows the preimage over it |
| LockupFate.StrippedWitnessReadsAsReturned | packages/swap/src/refund.ts:437-445 | a claimed output whose claim came back without its witness reads as returned |
| LockupFate.CompleteAnswersDecide | packages/swap/src/refund.ts:392-464 | once every spend is named and returned the answer is claimed or returned, and claimed exactly when the chain says so as long as preimages come back in, and only in, the spenders the outputs name |
| LockupFate.FateIgnoresOrder | packages/swap/src/refund.ts:392-464 | the fate depends only on which outputs and transactions are listed, and so do the named spends |
| RefundUnresolved.RefundIfUnresolved | packages/swap/src/refund.ts:658-719 | ends with what its last pass decided, no earlier pass decided anything, and by the first pass at or after both deadlines; every refund the loop submits is at or after the locktime, with no pass up to it having seen the swap resolved, only the last can have gone through, and it has exactly when the outcome says so |
| RefundUnresolved.OnePass | packages/swap/src/refund.ts:687-717 | a pass decides as stated, and what it submits is due, unresolved and taken back exactly when it goes through |
| RefundUnresolved.TakenBackExact | packages/swap/src/refund.ts:505-562 | a reported refund is the sum over every listed outpoint, each once, all live |
| RefundUnresolved.NeedsRecoveryIff | packages/swap/src/refund.ts:505-530 | recovery is reported if and only if some output is only in the swept list, naming exactly those |
| RefundUnresolved.GivesUpIff | packages/swap/src/refund.ts:658-719 | a refused refund ends the wait with its error if and only if its pass is past the locktime and ends at or after the attempt deadline, by default 7200 s later |
| RefundUnresolved.EndsWithoutRefundIff | packages/swap/src/refund.ts:687-717 | a pass ends the wait as resolved exactly when it sees the swap settled or refunded, and with nothing to refund exactly when it is past the locktime and both lists are empty |
| RefundUnresolved.SumIs | packages/swap/src/refund.ts:505-562 | the amount of a refund is the sum of the values |
| RefundUnresolved.FoundExact | packages/swap/src/refund.ts:264-295 | each outpoint of either list once, recoverable exactly when the spendable list does not name it |
| RefundUnresolved.FindLockupVtxos | packages/swap/src/refund.ts:264-295 | the nested loops build exactly that list |
| RefundUnresolved.PushRefund | packages/swap/src/refund.ts:505-562 | refuses when anything is swept, naming it; otherwise submits, and returns the sum |
| Restore.NothingIsLost | packages/swap/src/restore.ts:231-386 | after any scans with partial but truthful answers every sent txid that carries an offer is on record with the chain's status or still a candidate |
| Restore.CompleteScanConverges | packages/swap/src/restore.ts:231-386 | once a scan gets every answer the record equals one full scan from nothing, however the earlier scans went |
| Restore.StatusDictated | packages/swap/src/restore.ts:142-204 | the status of a funded offer is its deposit's state and, for a spent one, exactly the leaf that was taken |
| Restore.DepositReadIff | packages/swap/src/restore.ts:317-338 | from partially attached riders the recorded asset and amount are the chain's if and only if the offer names its deposit asset or the riders do not mislead: the only one missing, or all but one |
| Restore.LateRiderReadsAsBtc | packages/swap/src/restore.ts:317-338 | an asset deposit read as BTC because its rider came late |
| Restore.ResolvedIsTrue | packages/swap/src/restore.ts:304-356 | whatever a scan can say from partial truthful answers is what the chain dictates |
| Restore.PartialSpendsAgree | packages/swap/src/restore.ts:181-204 | a definite answer from some of the spend ids and some of the spends, tap leaves of which may be missing, is the answer from all of them whole |
| Restore.NeverRestoredTwice | packages/swap/src/restore.ts:86-101 | no scan restores an id that is already on record |
| Restore.ScansKeepSound | packages/swap/src/restore.ts:231-386 | any scans keep: stored statuses are the chain's, and an offer is put aside only once it is on record |
| Restore.ClassifySpend | packages/swap/src/restore.ts:142-176 | the first cancel or fulfill leaf revealed by an input of the deposit, and indeterminate when the covenant does not compile to the offer's script |
| Restore.UnscannedSwapCandidates | packages/swap/src/restore.ts:86-101 | exactly the sent txids neither on record nor answered |
| Restore.RestoreAssetSwaps | packages/swap/src/restore.ts:231-386 | one record for each offer that resolves and no other, each saying of its deposit and offer what `Restore.RecordSays` states, the unresolved left unscanned, and nothing at all when the deposit lookup fails |
| Restore.RecordSays | packages/swap/src/restore.ts:310-386 | in plain fields: the deposited asset is the offer's, else the one positive rider's, else BTC; the amount is the output's sats or that asset's first rider; the wants are the offer's; a spend is named exactly for a spent deposit; the times are the wallet's last lines for the funding and, when fulfilled, the spend |
| Restore.RestoredWithDetails | packages/swap/src/restore.ts:304-386 | the records are of exactly the offers that resolve, each with the status it resolves to |
| OfferCodec.DecodeIff | packages/swap/src/offer.ts:216-265 | a payload decodes to an offer if and only if it is the concatenation of some reordering of that offer's records |
| OfferCodec.RoundTrip | packages/swap/src/offer.ts:151-265 | every offer the encoder accepts decodes back to itself, the big-endian amount included |
| OfferCodec.EncodeInjective | packages/swap/src/offer.ts:151-214 | two offers with one encoding are one offer |
| OfferCodec.WireBytes | packages/swap/src/offer.ts:151-214 | an encoding is these bytes: six records in order, each its type byte, a two-byte length and its value |
| OfferCodec.EncodesIff | packages/swap/src/offer.ts:151-214 | exactly which offers are encoded, and every refusal names something that is wrong |
| OfferCodec.RefusalIsTrue | packages/swap/src/offer.ts:236-265 | what a refusal of a parsed record list says of it is the case: a missing or wrongly sized field, both or no asset, an asset that does not parse |
| OfferCodec.PrefixFree | packages/swap/src/offer.ts:216-265 | no accepted payload is a proper prefix of another |
| OfferCodec.DecodeOffer | packages/swap/src/offer.ts:216-265 | the loop over the payload computes the decoder the laws are about |
| OfferCodec.AssetRoundTrip | packages/ts-sdk/src/extension/asset/assetId.ts:84-164 | an asset id parses back from its bytes |
| OfferCodec.AssetParsesIff | packages/ts-sdk/src/extension/asset/assetId.ts:84-164 | exactly the 34-byte strings whose id is not all zero parse, the group index little-endian |
| Coverage.OneAtATime | packages/swap/src/coverage.ts:59-73 | in every run the changes of one script run one at a time in call order, however the earlier ones ended |
| Coverage.QueueNeverStalls | packages/swap/src/coverage.ts:59-73 | in every run the first unsettled change of a script is being written or may begin |
| Coverage.OutstandingIsWatched | packages/swap/src/coverage.ts:83-113 | in every state of every run an issuance mark implies the script is watched |
| Coverage.RetainedOnlyOnEvidence | packages/swap/src/coverage.ts:83-152 | a script issued in this process is retained only after a retirement over a list in which every record there is fulfilled or cancelled, and a retirement whose list has a record created no earlier than the last issuance, both begun after it |
| Coverage.RetiringStep | packages/swap/src/coverage.ts:133-152 | the step that retires belongs to a retirement in whose own list every record at the script is fulfilled or cancelled, and finds no mark |
| Coverage.RetirementWritesIff | packages/swap/src/coverage.ts:83-152 | a retirement goes on to write if and only if every record at the script is fulfilled or cancelled and no address is outstanding or one was created at or after the mark, which is then cleared; else it settles and changes nothing |
| Coverage.PossibleIff | packages/swap/src/coverage.ts:59-73 | which steps can come next, in plain fields: a change only once the one it was chained to has settled, an answer only to a write |
| Coverage.RunGoesOn | packages/swap/src/coverage.ts:59-152 | every possible step goes on with a run, and nothing else does |
| Coverage.AnswerWrites | packages/swap/src/coverage.ts:103-152 | a write that landed leaves the script watched after a promotion and retained after a retirement, no other script is touched, and only a promotion that succeeded marks |
| Coverage.DropsLastOnly | packages/swap/src/coverage.ts:68-72 | the queue of a script is dropped by the clean-up of its last change and by no other |
| Coverage.ReachableInv | packages/swap/src/coverage.ts:59-152 | every step keeps the queue, mark and evidence invariants |
| Coverage.CoverageChanges.Serialize | packages/swap/src/coverage.ts:59-73 | a change is chained to the one in flight for its script and becomes the tail |
| Coverage.CoverageChanges.AddressOutstanding | packages/swap/src/coverage.ts:83-91 | outstanding exactly when marked and no record is as recent; otherwise the mark is gone |
| Coverage.CoverageChanges.RunChange | packages/swap/src/coverage.ts:103-152 | a change decides as the machine's begin step, whose decisions `Coverage.RetirementWritesIff` gives in plain fields |
| Coverage.CoverageChanges.ManagerAnswers | packages/swap/src/coverage.ts:103-152 | the watch state is written if the write landed, and the mark set only by a promotion that succeeded |
| Coverage.CoverageChanges.DropQueue | packages/swap/src/coverage.ts:68-72 | only the tail of a queue drops the queue |
| RecoveryScan.ScanRecoverableSubmarineSwaps | packages/boltz-swap/src/arkade-swaps.ts:1458-1561 | for every candidate in order the verdict, count and amount of its own inspection, except that already spent becomes no funds |
| RecoveryScan.GroupIsOwnQuery | packages/boltz-swap/src/arkade-swaps.ts:1505-1529 | a group of the batched answer is, as a list, the de-duplicated answer to the swap's own queries |
| RecoveryScan.InspectMeans | packages/boltz-swap/src/arkade-swaps.ts:1266-1314 | each listed outpoint counts once; recoverable exactly when something is there and the locktime has passed or a live output of a complete record can be co-signed; already spent exactly when nothing is left and every output ever listed there is spent |
| RecoveryScan.TotalIsSum | packages/boltz-swap/src/arkade-swaps.ts:1275 | the amount reported is the sum of the outputs' values |
| RecoveryScan.HexCaseIgnored | packages/boltz-swap/src/arkade-swaps.ts:1520-1529 | script hex is compared without regard to case, and nothing else is changed |
| RecoveryScan.CandidateIff | packages/boltz-swap/src/arkade-swaps.ts:1406-1424 | a swap is inspected exactly in the claimed and the three refundable statuses, when its lockup can be rebuilt |
| RecoveryScan.DedupeMatching | packages/boltz-swap/src/arkade-swaps.ts:194-196 | de-duplicating and then picking a script is picking it and then de-duplicating |
| RecoveryScan.DedupeKeepsLast | packages/boltz-swap/src/arkade-swaps.ts:194-196 | one entry for each outpoint, and it is the last one listed |
| RecoveryScan.GroupByScript | packages/boltz-swap/src/arkade-swaps.ts:1520-1529 | every script's group is its outputs in order |
| ClaimGuard.FirstDisclosureIsCovered | packages/boltz-swap/src/arkade-swaps.ts:660-724 | in every run of attempts the preimage first leaves on a read whose unspent coins cover the agreed amount, or, when the sender is not known to be locked out, every spend paid us what it took; known means a height above a known tip or a time ahead of the clock |
| ClaimGuard.RemainderNeverRefused | packages/boltz-swap/src/arkade-swaps.ts:670-697 | once the last read shows a spend while the locktime is known to be ahead the attempt is not refused for its amount |
| ClaimGuard.RefusedForAmountIff | packages/boltz-swap/src/arkade-swaps.ts:2690-2704 | refused for its amount if and only if coins fall short and there is no spend, or none that paid us in full and the locktime is not known to be ahead; nothing seen and all spent are told apart; a claim is for all the unspent coins |
| ClaimGuard.UnknownLocktimeRefuses | packages/boltz-swap/src/arkade-swaps.ts:2758-2771 | with no locktime, or a height and no tip, an attempt whose every read falls short and shows no spend that made us whole is refused for the amount |
| Locktime.ReadingsIff | packages/boltz-swap/src/utils/locktime.ts:21-44 | reached, may be reached and when to look again, in plain integers, for heights, timestamps and unknowns |
| ClaimGuard.ClaimVHTLC | packages/boltz-swap/src/arkade-swaps.ts:660-724 | the retry loop acts on the first actionable read, else the last, and decides by it |
| ClaimGuard.SpentIntoOurWallet | packages/boltz-swap/src/arkade-swaps.ts:2717-2756 | true exactly when every spend is an offchain transaction that paid our scripts at least what it took |
| ClaimGuard.AttributionConserves | packages/boltz-swap/src/arkade-swaps.ts:2717-2756 | then the total taken is at most what our scripts received from those transactions, each output counted once |
| ClaimGuard.OnePayment | packages/boltz-swap/src/arkade-swaps.ts:2717-2756 | one spend is made whole by one payment exactly when that is from the spending transaction and of at least its value |
| ClaimGuard.AttributionIgnoresOrder | packages/boltz-swap/src/arkade-swaps.ts:2717-2756 | the answer does not depend on the order of either list |
| ClaimGuard.SumPerTx | packages/boltz-swap/src/arkade-swaps.ts:2724-2749 | the accumulated map holds each transaction's exact sum |
| RefundLoop.RefundVtxos | packages/boltz-swap/src/arkade-swaps.ts:3387-3524 | fails exactly when some VTXO fails, at the first that does; otherwise swept plus skipped is the VTXO count, and the time to retry exists exactly when something was deferred and is the earliest; its trace is what was asked for each VTXO up to where it ended |
| RefundLoop.SettledAtMostOnce | packages/boltz-swap/src/arkade-swaps.ts:3387-3524 | of the requests the loop makes, however far it gets: each VTXO is granted exactly when it is swept and by its last request alone, and with distinct outpoints no outpoint is spent twice |
| RefundLoop.SettledByLastRequest | packages/boltz-swap/src/arkade-swaps.ts:3432-3520 | the sender's leaf is asked for only past its locktime, Boltz only before it and never for a swept output |
| RefundLoop.FateMeans | packages/boltz-swap/src/arkade-swaps.ts:3428-3520 | for each VTXO exactly what is asked, and by each answer whether it is swept, fails, or is deferred, to the locktime, or for 60 s when that is a height or the spend came too early |
| RefundLoop.RefundOne | packages/boltz-swap/src/arkade-swaps.ts:3428-3520 | one turn makes exactly those requests and ends in the VTXO's fate |
| RefundLoop.PendingSwap.RefundVHTLC | packages/boltz-swap/src/arkade-swaps.ts:1325-1397 | refunded is recorded true exactly when nothing was deferred, a claimed swap or a failure changes nothing, and whatever the indexer's lists repeat no outpoint is spent twice |
| RefundLoop.EarlyRetryIsTheLocktime | packages/boltz-swap/src/arkade-swaps.ts:3445-3457 | before a timestamp locktime the reported time to retry is the locktime |
| RefundLoop.PacedArrival | packages/boltz-swap/src/swap-manager.ts:1038-1044 | re-arming on a fixed time reaches it after as many attempts as the wait has hours, rounded up, never early and less than 60 s late |
| ReceiveLeg.ReceiveLegEndToEnd | packages/swap/src/rfq.ts:1716-1755 | a passed request and a first claim that submits: the invoice pays the trader's hash for exactly the price, the payout is at most the price and is in the lockup, and paying at the deadline leaves the claim window |
| ReceiveLeg.NoNaNReachesDisclosure | packages/swap/src/claim.ts:88-177 | no `NaN` in quote, request, decoder or lockup gets past both gates |
| ReceiveLeg.RequestPassesIff | packages/swap/src/rfq.ts:1342-1478 | exactly which requests pass, in plain integers |
| ReceiveLeg.RefusalIsTrue | packages/swap/src/rfq.ts:1342-1478 | every reason a request is refused for is the case, in plain fields |
| ReceiveLeg.ReceivableIff | packages/swap/src/rfq.ts:1378-1478 | exactly what the receive gate lets through, with any window, 1800 s by default, and any ceiling |
| ReceiveLeg.InfinitePricePasses | packages/swap/src/rfq.ts:1378-1420 | a request with an infinite price that passes |
| ReceiveLeg.PriceIsFiniteIff | packages/swap/src/rfq.ts:1378-1478 | every quote a request passes has a finite price if and only if the request, by its decoder, clock, amount and ceiling, does not admit an infinite one |
| ReceiveLeg.FirstClaimSubmits | packages/swap/src/claim.ts:123-177 | a first claim submits if and only if every output is live and finite, the amount is finite and covered, and the preimage opens the lockup |
| ReceiveLeg.RemainderIgnoresTheAmount | packages/swap/src/claim.ts:161-177 | after a partial claim the amount is no reason to refuse |
| ReceiveLeg.ClaimRefusalIsTrue | packages/swap/src/claim.ts:123-177 | every reason a claim is refused for is the case, in plain integers |
| ReceiveLeg.FiniteSumHasFiniteParts | packages/swap/src/claim.ts:158-162 | the folded sum is finite if and only if every value is, and then it is the integer sum |
| JsNumber.NaNSpreads | packages/swap/src/rfq.ts:371-427 | arithmetic with `NaN` is `NaN` and no comparison with it holds |
| JsNumber.Ordered | packages/swap/src/rfq.ts:371-427 | the other numbers are totally ordered with the infinities at the ends |
| JsNumber.Sums | packages/swap/src/rfq.ts:371-427 | opposite infinities leave `NaN`, one absorbs, integers add up |
| ReceiveLeg.ClaimGate | packages/swap/src/claim.ts:123-177 | the fold and the checks refuse in the order and for the reasons of the gate |
| RfqRecord.RebuildIsTheLiveSwap | packages/swap/src/rfqRecord.ts:325-357 | after any run of updates and re-creations a rebuild gives back exactly the live swap, cleared fields included, and is refused exactly for another lockup's parameters, an unusable request half or an amount that is not finite |
| RfqRecord.SecretsSurvive | packages/swap/src/rfqRecord.ts:239-264 | signer and hashlock are unchanged by any number of writes |
| RfqRecord.RecreateIsUpdateIff | packages/swap/src/rfqRecord.ts:280-288 | re-creating from a record's origin equals updating it if and only if the record holds only fields an origin keeps |
| RfqRecord.RecordAsOriginIff | packages/swap/src/rfqRecord.ts:215-288 | a record passed as an origin equals updating it if and only if the live swap cleared nothing the record holds |
| RfqRecord.StoredMirrors | packages/swap/src/rfqRecord.ts:165-264 | every write leaves a record that says what the live swap says and keeps what came from the request |
| RfqRecord.LegWritten | packages/swap/src/rfqCorridors.ts:67-98 | a corridor's projection read back is the leg, and touches only its own profile fields |
| RfqRecord.ArmedByUntouched | packages/swap/src/rfqCorridors.ts:189-257 | whether a profile can be driven depends only on fields no write touches |
| RfqRecord.ArmedIff | packages/swap/src/rfqCorridors.ts:189-257 | what a request half must hold to be driven, in plain fields: a hashlock, and for an onchain leg both keys, a whole number of at least one confirmation and the address its own inputs derive |
| RfqRecord.WriteRefusedIff | packages/swap/src/rfqRecord.ts:215-264 | a creation or update is refused exactly for a swap of another kind or another lockup |
| RfqRecord.StoredFieldsIff | packages/swap/src/rfqRecord.ts:165-200 | which of the manager's fields are stored: the texts and the list that are not empty |
| MonitorSwap.SettlesOnceAndCleansUp | packages/boltz-swap/src/boltz-swap-provider.ts:1357-1523 | in every run the promise settles at most once, settled holds no socket, poll timer or timeout, and unsettled polls or has a live socket that opened or is on the clock |
| MonitorSwap.SettledIsFinal | packages/boltz-swap/src/boltz-swap-provider.ts:1387-1440 | nothing that arrives after settling is forwarded or starts anything |
| MonitorSwap.NothingAfterTerminal | packages/boltz-swap/src/boltz-swap-provider.ts:1395-1437 | a terminal report taken without a throw is the last one and settled the promise |
| MonitorSwap.TerminalSettlesIff | packages/boltz-swap/src/boltz-swap-provider.ts:1410-1425 | telling the caller a terminal status settles the promise if and only if the callback does not throw |
| MonitorSwap.SettlesIff | packages/boltz-swap/src/boltz-swap-provider.ts:1395-1437 | status by status, a report settles the promise if and only if it is new, the callback takes it, and it is one of the seven ends or a failed lockup that cannot be negotiated |
| MonitorSwap.PollsOn | packages/boltz-swap/src/boltz-swap-provider.ts:1441-1468 | polling asks once at every tick until the promise settles, and only what was asked is answered |
| MonitorSwap.ConnectionEvents | packages/boltz-swap/src/boltz-swap-provider.ts:1453-1503 | an error, a close or a timeout hands over to polling with one first request unless it already polls or has settled; which handle each drops and whether the clock stops |
| MonitorSwap.StartsWith | packages/boltz-swap/src/boltz-swap-provider.ts:1441-1468 | a socket that could be made is on the clock and nothing is asked; otherwise polling has begun with one request |
| MonitorSwap.NoStatusTwiceInARow | packages/boltz-swap/src/boltz-swap-provider.ts:1395-1400 | over the closed status set no status is forwarded twice in a row |
| MonitorSwap.RepeatsIff | packages/boltz-swap/src/boltz-swap-provider.ts:1395-1437 | a report repeats the one before if and only if a status outside the closed set was noted in between |
| MonitorSwap.RepeatExample | packages/boltz-swap/src/boltz-swap-provider.ts:1395-1437 | such a run |
| MonitorSwap.ThrowingCallbackExample | packages/boltz-swap/src/boltz-swap-provider.ts:1410-1425 | a run that forwards more after a terminal status whose callback threw |
| MonitorSwap.Monitor.Handle | packages/boltz-swap/src/boltz-swap-provider.ts:1395-1437 | de-duplicates, forwards and settles as the machine says |
| MonitorSwap.Monitor.FinishNow | packages/boltz-swap/src/boltz-swap-provider.ts:1368-1393 | settles once and releases every handle |
| MonitorSwap.Monitor.Error | packages/boltz-swap/src/boltz-swap-provider.ts:1470-1479 | a failed socket is dropped and polling takes over |
| MonitorSwap.Monitor.Close | packages/boltz-swap/src/boltz-swap-provider.ts:1495-1503 | a closed socket starts polling unless settled or polling |
| MonitorSwap.Monitor.Timeout | packages/boltz-swap/src/boltz-swap-provider.ts:1459-1468 | a socket that did not open is dropped and polling takes over |
| MonitorSwap.Monitor.PollAnswer | packages/boltz-swap/src/boltz-swap-provider.ts:1441-1451 | a late answer is handled like any other and a failed one ignored |

## Left out

Assumptions the models rest on:

- Hashes, signatures, scripts, addresses and HTLC derivation are function parameters; preimage secrecy until disclosure, one spender for an outpoint and one list of inputs for a txid are stated as predicates where they are used.
- The swap manager model has one live object for each id, adds an id once, lets a save take effect when it is issued, and does not run a timer callback of a swap while a continuation of the same swap is ready.
- SwapManager keeps one map of entries where the code keeps several maps and sets keyed by the same id; aliasing of swap objects between callers is not captured.
- MonitorSwap lets socket events arrive in any order and number, which includes every order a browser produces.
- Coverage assumes that only these changes write the watch state of an offer script; a write that reports failure may still have landed.
- RecoveryScan assumes one fixed snapshot of the indexer, which compares script hex without regard to case, and an outpoint that determines its script; ClaimGuard takes the indexer to list each received output once.
- Restore holds the chain still between scans: outputs persist, the server key is not rotated, and a script and txid have one deposit. A returned spend has its transaction's inputs; the tap leaves of each may be missing, none is made up.
- LockupFate: a returned transaction with the id of a named spender has its inputs, and witness items may be missing but not made up; any other returned transaction may hold anything.

What is not modelled:

- SwapMachine.NoStrandedRefund: calm is enough and not necessary; the exact account is SwapMachine.NeverLeftBehindIff. A forced expiry ends what is owed until the next start.
- SwapMachine.RestartArmsOneTimerIff: speaks of the timers right after the connection attempt; when the swap was taken off the monitored set, a timer armed by an action still in flight stays as it is.
- ClaimGuard.FirstDisclosureIsCovered: assumes that while the sender's refund locktime is known not reached only our own claim spends the lockup.
- OnchainSend.SolverNeverKeepsBoth: a fill counts whatever its amount, because the code asks of it only what the dust limit does; OnchainSend.WorthItIffGated says when it is worth the payout.
- Restore.RestoreAssetSwaps: a record's funding txid repeats its id, its script is the offer's and its swap address is always empty; none of them is kept.
- LockupFate.ClaimedIsSound: the chain-side half needs what shows the preimage to be a named spender, because the code does not ask for that; the condition is not shown to be necessary, since an output that was claimed makes any such answer right.
- LockupFate.FateIgnoresOrder: the map of spends is order-independent when outputs of one spend report one ark transaction; otherwise the last listed wins.
- RefundLoop.PacedArrival: timers are ideal; a block-height locktime re-polls every minute instead and has no fixed time to reach.
- Reconnects, back-off delays, poll-retry timers, event listeners and subscriptions of the swap manager: bookkeeping with no safety property.
- `awaitOnchainFill` and `awaitLockupFunding`: polling loops with no decision beyond the classified reading.
- `retireSettledOfferContracts`: issues one retirement for each settled script and decides nothing.
- Chunking in `fetchParsedTxs`: any part of the answers may be missing in the model already.
- Transports, response guards, PSBT building and signing, repositories, market discovery, activity labels, batch rounds and the Expo glue: I/O, external code or easy.
- Races between `ArkadeSwaps` and the manager on one stored record.
