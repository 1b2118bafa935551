# Tradewinds bot: a verified model

The bot trades in-game money through an unreliable API and must survive a crash at any
point. This project models the parts whose correctness spans several functions, or whole
runs, and proves what they keep.

**The durable action protocol.** `Upstream`, `Journal` and `Dispatcher` model a mission that
stages an immutable request, journals it, sends it under its idempotency key, and then
consumes, reconciles or retires it. `Journal` is a step machine over the database, the wire,
the server's memory, the lists the bot asks for and the clock; a crash may fall between any two
durable writes. `NetworkBounds` says which network delays it tolerates. `Dispatcher.Runner` is
the executor, with the source's fields; each method is proved to extend a run of that machine.
`Fences` says what the capture fences of an action are worth. `Minting` is the second instance of
the protocol: the command that mints an API key once, with derived identities for rate-limited
retries. `Runs` and `Options` hold what they share.

**Controllers built on it.** `Marque`, `MarqueRuns` and `MarqueEscapes` (the loss limit of
letters of marque), `Refinance`, `RefinanceEscapes` and `RefinanceController` (one borrower
request per instalment, one replacement loan, three failed payoffs), `FuturesLease` and
`LeaseController` (what is rented on top of the company's own warehouse lease, and its exact
return), `CompanyFlows` (an incremental cash-flow history against a classification from scratch).

**Market books and uncertain time.** `Observation` (server time bounds and market shocks),
`BookMemory` (retained baselines and drift), `Depth` (capacity, best-first depletion, bounded
top-ten retention), on `Ordering` (stable sorting).

**Arithmetic, orders and loops.** `Pence` (saturating totals, exact roundings, fills),
`Ranking` (anchored tolerances), `Freight` (itineraries), `Idle` (idle hours), `Pager` (budgets
of the loan history).

Identities are tuples where the source hashes the same fields; request bodies and payloads are
opaque values; money is unbounded integers with the 64-bit limits written out; rates and days are
reals. The environment is stated in each machine's enabling conditions: the server applies a key
once within 24 hours of first seeing it; evidence read from the API is truthful, though lists may
omit or lag. Two delays are parameters of a run of `Journal` and `MarqueRuns`, and the first of
one of `Minting`: the longest flight of a request, and the longest time from a list's reading on
the server to its answer. The theorems about `Journal` allow any flight up to an hour and a
minute, beyond which a key can take effect twice (`NetworkBounds.OnceExactly`); what needs a
faster network says so. `Minting` allows the hour that its replay window leaves, and no more
(`Minting.OneKeyExactly`).

## Where the code does less than it promises

Each is proved with a concrete input or run, beside the exact condition under which the promise
holds.

- A request whose answer was lost is called absent once a list answered after its replay window
  lacks it (internal/engine/marque.go:866-884, internal/engine/snapshot.go:204-206). Transports
  stop a minute before the window ends, and that minute has to cover both the request's flight
  and the age of the answered list, while the client waits 45 seconds for either
  (internal/gameapi/client.go:28). The proof is sound on exactly the networks whose two delays
  together fit in a minute (`NetworkBounds.AbsenceExactly`); on any other, a request settled as
  absent can take effect, and the marque loss limit fails (`MarqueEscapes.LossExactly`).
- A letter of marque listed only in a pass with no valid clock reading is cleared from the
  pending record without becoming active; when later lists omit it, its charge is forgotten and
  the loss limit can be exceeded (`MarqueEscapes.LossEscapes`). An absence proof that rests on a
  list omitting the issued letter does the same. `MarqueRuns.AccountedExactly` says when.
- The fences guard against known invalidation only (docs/architecture.md:135): a financial event
  counts when it is received (internal/engine/runner.go:247-262), and the preflight of a borrower
  request never compares the staged due date with the current one
  (internal/engine/loan_refinance.go:600-614). A first send is for the current due date exactly when
  every move since the capture has been heard (`Refinance.FirstSentOnTime`), and a row journaled
  before a crash is replayed without the fences or the preflight. When the instalment falls in
  between, the answer is recorded for the earlier due date, and once the 24-hour cooldown is over a
  second request can follow at the same due date. `RefinanceEscapes` has both runs: through an event
  that arrives late (`SecondRequestAfterLateEvent`) and through a crash and a replay
  (`SecondRequestForOneDueDate`); `Refinance.BarredExactly` and `Refinance.OneRequestPerDueDate` say
  when it cannot. It takes a slow game clock: at time scale 60 an instalment falls about every four
  hours, so the later one has passed by then.
- The control fence of a staged action is not tied to its process: it compares event counters that
  start from zero in every process (internal/engine/journal.go:180-183,
  internal/engine/runner.go:81-84). After a restart an action passes it exactly when the new count
  equals the staged one (`Fences.FencesExact`), so a restart alone can refuse an untouched action
  (`Fences.RestartRefuses`) and readmit one that an event had refused (`Fences.RestartReadmits`). In
  the dispatch that creates the row this does no harm, because there the financial fence, which does
  carry the process, is asked as well (`Fences.FirstSendFenced`).
- A row that a crash or an abandoned dispatch left journaled and unsent is later sent past the
  control counters alone (internal/engine/journal.go:371-383, internal/engine/journal.go:552-555):
  resumed, it asks whether every control event received had been handled when the pass started, and
  nothing about its staging (`Fences.ResumedPastControl`). Its first transport can then be made by a
  process that never staged it (`Fences.FirstSendByAnother`), or after a financial event that closed
  its fence (`Fences.FirstSendUnfenced`). A transport is made by the process that staged or rebound
  its action exactly when no crash has left its row pending (`Fences.SentByItsProcessExactly`).
- A definitive request drops off the refinance record when dates are written from a borrower
  history that lacks its loan (`Refinance.RecordedExactly`).
- A lost lease growth and somebody else's lease of the same size look alike to the recovery, and
  a lease increase that lands between the preflight and the request is overwritten
  (`FuturesLease.MistakenRecovery`, `FuturesLease.AccountedExactly`).
- A minted key whose successful response was stored without a readable key, or whose outcome was
  never read within the replay window, is never recovered by running the command again
  (`Minting.UnreadableSuccessIsStuck`, `Minting.UnheardSuccessIsStuck`, `Minting.StuckForever`,
  `Minting.KeyAccounted`).
- When both accounts of a recorded ledger entry change hands, the recorded amount keeps its old
  sign (`CompanyFlows.StaleSign`, `CompanyFlows.EverySyncAmountsExactly`).
- One malformed world event, about any port, makes the decoder report no shocks at all
  (internal/engine/market_events.go:36-39), and invalid events stop the drift samples only
  (internal/engine/book_memory.go:55-61). A book read during a shock that is properly recorded is
  then stored as a baseline exactly when some recorded event is malformed
  (`BookMemory.StruckStoredExactly`, `BookMemory.UndistortedExactly`, with
  `BookMemory.MalformedStores` for a case). No drift sample is distorted
  (`BookMemory.SamplesUndistorted`); one taken later from such a baseline falls under the next item.
- A shock that is reported only after a book was stored leaves the distorted book in place as a
  baseline, and gives a drift sample, exactly when it had ended by the book's own date
  (`BookMemory.LateShockMissed`, `BookMemory.LateShockStays`, `BookMemory.LateShockDrifts`).

## Model

| member | source | states |
|---|---|---|
| `Journal.EveryRunKeepsInv` | internal/engine/journal.go:308-666 | Every run with crashes anywhere keeps the protocol's invariant: sent requests were journaled first and in time, outcomes agree with the server, identities are spent once. |
| `Journal.NeverSentIsTrue` | internal/engine/journal.go:331-394 | An action retired as never sent was never transported and has no server effect. |
| `Journal.SurvivorNeverCalledUnsent` | internal/engine/journal.go:496-571 | A row that was pending at a crash is never afterwards called never sent. |
| `Journal.TransportsAreTheJournaledRequest` | internal/engine/journal.go:383-494 | All transports under one key carry the journaled method, path and body and start before the replay window less a minute. |
| `Journal.AppliedAtMostOnce` | internal/store/models.go:23-25 | The server applies each key's request at most once, however often it is resent. |
| `Journal.DeliveryDecidesOnce` | internal/engine/journal.go:371-383 | A late duplicate always arrives while the server still remembers the key. |
| `Journal.SettledAgreesWithServer` | internal/engine/journal.go:391-494 | A settled row says exactly whether the request took effect; for one settled as absent, on a punctual network. |
| `Journal.AbsenceProved` | internal/engine/marque.go:866-884 | On a punctual network, records answered after the replay window that lack the request prove that it has had no effect. |
| `Journal.AbsenceStays` | internal/engine/marque.go:866-884 | And no copy of it is left to arrive. |
| `Fences.FencesExact` | internal/engine/journal.go:174-183 | A staged action passes its financial fence exactly as long as its process lives and no financial event is received, and its control fence, within that process, exactly as long as no control event is; no later capture repairs either. In a later process it passes the control fence exactly when the control events received and handled there are as many as at its staging. |
| `Fences.FirstSendFenced` | internal/engine/journal.go:496-518 | In the dispatch that creates a row, the first transport is made by the process that staged or rebound its action, and no financial or control event has been received since. |
| `Fences.SentByItsProcessExactly` | internal/engine/journal.go:331-383 | A transport is made by the process that staged or rebound its action exactly when no crash has left its row pending. |
| `Fences.ResumedPastControl` | internal/engine/journal.go:552-555 | A resumed request may leave, inside its window and past its cooldown, exactly when every control event received had been handled when the pass started; its own fences play no part. |
| `Fences.FirstSendByAnother` | internal/engine/journal.go:371-383 | A run in which a request journaled before a crash is first sent by a process that never staged or rebound it. |
| `Fences.FirstSendUnfenced` | internal/engine/journal.go:552-555 | A run without a crash in which a request given up before its first transport is first sent after a financial event closed its fence. |
| `Fences.RestartRefuses` | internal/engine/runner.go:81-84 | A run in which a restart alone makes an action fail its control fence. |
| `Fences.RestartReadmits` | internal/engine/runner.go:104-122 | A run in which, after a restart, an action refused for a control event passes its control fence again. |
| `NetworkBounds.AbsenceExactly` | internal/engine/marque.go:866-884 | Absence proofs are sound in every run on exactly the networks whose request flight and list age add up to at most the minute between the last transport and the window's end. |
| `NetworkBounds.OnceExactly` | internal/store/models.go:23-25 | Every key takes effect at most once in every run exactly when a request arrives within an hour and a minute of its transport. |
| `Journal.OneUnresolvedRequest` | internal/engine/journal.go:90-153 | A generation has at most one pending row, and stages nothing while it has one. |
| `Journal.ReleasedOnlyWhenResolved` | internal/engine/journal.go:188-300 | A mission lets go of an action only when it is known unsent or its row is settled. |
| `Journal.IdentityNeverReused` | internal/engine/journal.go:82-84 | A journaled identity keeps its request for ever, and a retired one is never worked on again. |
| `Journal.JournalNeverConflicts` | internal/store/journal.go:60-123 | A mission's action always equals the row its identity finds, so the journal never reports a conflict. |
| `Journal.SettledIsFinal` | internal/store/journal.go:145-197 | A row's request never changes and a settled row never changes again. |
| `Journal.StagedIsNew` | internal/engine/journal.go:90-153 | Staging always uses an identity no row has, because the sequence rises at each retirement. |
| `Dispatcher.Runner.IsRun` | internal/engine/journal.go:308-666 | Whatever the executor has done is a legal run of the protocol, so all of the above holds of it. |
| `Dispatcher.Runner.StageAction` | internal/engine/journal.go:90-153 | Staging freezes the request under the next identity and saves it before anything else; it refuses a mission with an action. |
| `Dispatcher.Runner.ReplanUnsentAction` | internal/engine/journal.go:188-300 | A known-unsent action is rebound, retired with a higher sequence and a cooldown, or its mission deleted; no row or packet changes. |
| `Dispatcher.Runner.Dispatch` | internal/engine/journal.go:308-666 | Only the frozen request is sent, only past its fences and preflight; a pending row is never retired; a settled one is never resent. |
| `Dispatcher.Runner.DispatchFirst` | internal/engine/journal.go:308-371 | With no row yet, failed fences or admission leave journal and wire untouched. |
| `Dispatcher.Runner.BeginAndSend` | internal/engine/journal.go:371-494 | The row is journaled before the first transport. |
| `Dispatcher.Runner.DispatchPending` | internal/engine/journal.go:371-494 | A pending row is replayed inside its window, reconciled past it, and never treated as unsent. |
| `Dispatcher.Runner.Send` | internal/gameapi/client.go:260-326 | Every transport is of the one journaled request, and the client's own loop makes at most as many as its verb and path allow; a veto before the first proves it unsent. |
| `Dispatcher.Runner.VetoAndReplan` | internal/engine/journal.go:496-571 | A preflight veto closes the row as never sent and then retires the action. |
| `Dispatcher.Runner.ConsumeOutcome` | internal/engine/journal.go:446-488 | A stored outcome is consumed once, raising the sequence. |
| `Dispatcher.Runner.ReconcileObserved` | internal/engine/marque.go:846-889 | An ambiguous row is settled only on fresh records that show the request, or that lack it and were answered after its window; what it then says is true, for an absence on a punctual network. |
| `Dispatcher.Runner.StartCapture` | internal/engine/runner.go:399-404 | A pass fixes the fences at the events handled so far and forgets the earlier records; nothing is sent. |
| `Dispatcher.Runner.AskRecords` | internal/engine/runner.go:405-407 | Only then are the records read, so events received in between already count against the fences. |
| `Dispatcher.Runner.FinishCapture` | internal/engine/snapshot.go:204-211 | The records carry the time of their answer, and show what the server knew when it read them. |
| `Minting.OneKeyPerMint` | cmd/tradewinds/register.go:327-408 | One mint identity creates at most one server key, over all derived retry identities. |
| `Minting.OneKeyExactly` | cmd/tradewinds/register.go:369-375 | That holds in every run exactly when a request arrives within the hour between the end of its replay window and the server's forgetting. |
| `Minting.NoOrphanKey` | cmd/tradewinds/register.go:229-277 | A minted key is stored, or its mint identity is still held. |
| `Minting.MintEndsProved` | cmd/tradewinds/register.go:229-277 | A mint identity is released only after its key is stored or a rejection other than a rate limit is journaled, and then nothing it minted is lost. |
| `Minting.RetryWaitsForCooldown` | cmd/tradewinds/register.go:345-361 | A retry identity is used only after its throttled predecessor's persisted cooldown. |
| `Minting.ChainEndsAtKey` | cmd/tradewinds/register.go:334-362 | While the key is recoverable, following the retry chain ends at the row that minted it. |
| `Minting.StuckForever` | cmd/tradewinds/register.go:363-368 | A success stored without a readable key blocks its mint in every continuation. |
| `Minting.KeyAccounted` | cmd/tradewinds/register.go:229-408 | Between runs of the command, every key the server holds is in exactly one of three places: stored, fetched by the next run, or stuck for good. |
| `Minting.UnreadableSuccessIsStuck` | cmd/tradewinds/register.go:380-407 | Such a run exists. |
| `Minting.UnheardSuccessIsStuck` | cmd/tradewinds/register.go:363-379 | So does a run in which a key is minted and its answer is not read before the window ends. |
| `Minting.Registrar.IsRun` | cmd/tradewinds/register.go:179-279 | Whatever the command has done is a legal run of the minting protocol. |
| `Minting.Registrar.ResumeChain` | cmd/tradewinds/register.go:334-362 | Walks to the first unthrottled identity, stopping at a cooldown not yet over. |
| `Minting.Registrar.SendPending` | cmd/tradewinds/register.go:374-407 | An answered network makes a recoverable mint return its key. |
| `Minting.Registrar.BootstrapAction` | cmd/tradewinds/register.go:327-408 | Returns the recoverable key whenever the network answers. |
| `Minting.Registrar.UnderworldKey` | cmd/tradewinds/register.go:229-277 | Re-running the command stores the recoverable key, unless it is interrupted again or a stored key is kept. |
| `MarqueRuns.AccountedExactly` | internal/engine/marque.go:430-560 | Every issued letter stays accounted for across a step exactly when no current list clears it without a clock, no absence proof omits it, and it was issued to the request its mission still waits for. |
| `MarqueRuns.StepKeepsInv` | internal/engine/marque.go:734-827 | Guarded steps keep the accounting, the limit and the single letter at risk. |
| `MarqueRuns.LossBounded` | internal/engine/marque.go:82-117 | On a punctual network, in every run that is careful with lists, cost issued less prize recorded never exceeds 300,000 pence and at most one letter is unsettled. |
| `MarqueRuns.AbsenceSound` | internal/engine/marque.go:866-884 | On a punctual network, a request missing from a complete list answered after its window has created no letter, and no request is left that could. |
| `MarqueRuns.CarefulIsGuarded` | internal/engine/marque.go:866-884 | There the clock rule alone keeps late requests away; only the lists need care. |
| `MarqueRuns.EvidenceSettled` | internal/engine/marque.go:562-634 | An accepted preflight implies every letter has settled and the new charge fits the limit. |
| `MarqueRuns.NothingForgotten` | internal/engine/marque.go:419-476 | With a valid clock, a retained or listed letter stays retained or becomes an outcome. |
| `MarqueRuns.LookLoss` | internal/engine/marque.go:419-476 | Recording a pass never raises the loss. |
| `MarqueEscapes.LossEscapes` | internal/engine/marque.go:516-558 | A run in which the forgotten letter lets a second one break the limit. |
| `MarqueEscapes.LossExactly` | internal/engine/marque.go:866-884 | The limit holds in every careful run on exactly the punctual networks. |
| `Marque.Recorder.RecordMarques` | internal/engine/marque.go:430-560 | A pass is recorded whole or not at all: outcomes merged, actives retained, the pending issue kept or cleared. |
| `Marque.Recorder.MergeMarqueOutcomes` | internal/engine/marque.go:419-428 | The expired letters of the list settle, the later entry of a letter winning. |
| `Marque.Recorder.Evidence` | internal/engine/marque.go:596-634 | The tally is the true count and totals of letters in force and settled, or nothing when the record is unsound. |
| `Marque.OutcomeTotals` | internal/engine/marque.go:616-628 | Accumulating in any order gives the capped true totals, and rejects any amount out of range. |
| `Marque.InForceTotal` | internal/engine/marque.go:606-616 | Any invalid or expired retained letter blocks; otherwise the total is the capped true one. |
| `Refinance.StepKeepsInv` | internal/engine/loan_refinance.go:228-484 | Each durable write, send, replay, crash or server event keeps the controller's invariant when the borrower history is complete where dates are written. |
| `Refinance.RecordedExactly` | internal/engine/loan_refinance_guard.go:44-59 | Every definitive request stays on record across a step exactly when a step that writes dates sees, or knows closed, each loan requested before. |
| `Refinance.OneRequestPerInstalment` | internal/engine/loan_refinance_guard.go:44-70 | No two definitive requests are staged for the same instalment of a loan, while the borrower history is complete where dates are written. |
| `Refinance.AskedOnceBarred` | internal/engine/loan_refinance_guard.go:61-70 | Once the answer to an instalment's request is on record, the controller may never request for that instalment again. |
| `Refinance.FirstSentOnTime` | internal/engine/journal.go:496-518 | A first send that is allowed is for the current due date exactly when every move of that loan's due date since the capture it was staged from has been followed by an event received. |
| `Refinance.SentOnTimeExactly` | internal/engine/player_loans.go:755-766 | Sent first or replayed, a request is for the current due date exactly when the server has not moved it since that capture. |
| `Refinance.StagedBefore` | internal/engine/loan_refinance.go:412-421 | Every attached borrower request was staged for the due date its last capture showed, with no event between the two, and none since while its fence stands. |
| `Refinance.OneRequestPerDueDate` | internal/engine/loan_refinance.go:600-614 | It suffices that the borrower history is complete where dates are written and that no request is sent or replayed after its due date has moved: then no two definitive requests for a loan are transported at the same due date. |
| `Refinance.BarredExactly` | internal/engine/loan_refinance.go:637-733 | After a saved answer and its cooldown, a due date may be requested again exactly when the request was not staged for it, though it was transported then. |
| `RefinanceEscapes.SecondRequestForOneDueDate` | internal/engine/player_loans.go:755-766 | A run with two requests at one due date, through a crash and a replay without preflight. |
| `RefinanceEscapes.SecondRequestAfterLateEvent` | internal/engine/runner.go:247-262 | Another, with no crash and no replay, through an event that arrives after the first send. |
| `Refinance.OneReplacementLoan` | internal/engine/loan_refinance.go:615-627 | An episode accepts at most one replacement loan, and once it has one no approval is journaled, sent or replayed. |
| `Refinance.ThreeFailedPayoffs` | internal/engine/loan_refinance.go:330-339 | At most three payoffs fail unconfirmed; after the third none is staged, retried, sent or replayed. |
| `RefinanceController.Controller.IsRun` | internal/engine/loan_refinance.go:228-484 | Whatever the controller has done is a legal run of the machine. |
| `RefinanceController.Controller.RecordLoanRefinanceDue` | internal/engine/loan_refinance_guard.go:44-59 | Keeps the dates of the listed loans and notes this loan's. |
| `RefinanceController.Controller.SendFirst` | internal/engine/journal.go:340-371 | A staged action is journaled and then sent past fences and preflight, or retired unsent; a crash leaves the row. |
| `RefinanceController.Controller.ReplayRow` | internal/engine/journal.go:462-494 | A row found in the journal is replayed as it is, within its window. |
| `RefinanceController.Controller.ChooseLoan` | internal/engine/loan_refinance.go:238-265 | The choice needs and may have a request; no choice means none may. |
| `RefinanceController.Controller.StageRequest` | internal/engine/loan_refinance.go:412-421 | The due key is persisted before the request is staged, and the request is staged only while no financial event has invalidated the capture. |
| `RefinanceController.Controller.LoanRefinanceResult` | internal/engine/loan_refinance.go:637-668 | The record half of a result, saved before the mission lets go of its action. |
| `RefinanceController.Controller.ConsumeResult` | internal/engine/loan_refinance.go:637-733 | A result is saved and then released, or a mismatched disbursement retires the controller; a crash in between leaves the first write repeatable. |
| `RefinanceController.Controller.DeferLoanRefinance` | internal/engine/loan_refinance.go:670-683 | A lapsed request backs off a day and forgets only the request. |
| `RefinanceController.Controller.FinishLoanRefinance` | internal/engine/loan_refinance.go:109-131 | Mission first, record second; the cooldown starts when a request existed. |
| `RefinanceController.Controller.DriveReplacement` | internal/engine/loan_refinance.go:308-352 | Exhausted attempts retire the controller; a payoff is staged only for a matching disbursement with no arrears. |
| `RefinanceController.Controller.DriveRequest` | internal/engine/loan_refinance.go:424-484 | An approval is staged only for an open, still needed, acceptably quoted request. |
| `RefinanceController.Controller.DriveLoanRefinance` | internal/engine/loan_refinance.go:228-484 | Nothing happens while an action is unresolved; a closed old loan retires the controller. |
| `FuturesLease.AccountedExactly` | internal/engine/futures_lease.go:363-382 | Recorded baselines stay exact across a step precisely when a request lands on the lease it was checked against and recovery rests on one that landed. |
| `FuturesLease.BaselineExact` | internal/engine/futures_lease.go:96-141 | Through any guarded sequence of resizes and releases the baseline equals what others leased, increases included. |
| `FuturesLease.ReleaseSafe` | internal/engine/futures_lease.go:220-249 | A release passing preflight stays above the others' lease and above stock, locks and all incoming lots. |
| `FuturesLease.GrowthFits` | internal/engine/futures_lease.go:250-282 | Once a growth that passed its preflight has landed, the warehouse holds stock, locked goods and all incoming lots, with not a ton to spare, within the port's free tons, and the others' lease is unchanged. |
| `FuturesLease.ReleaseReturns` | internal/engine/futures_lease.go:183-218 | With stock and obligations gone, one release returns exactly the others' lease and drops the holding. |
| `FuturesLease.MistakenRecovery` | internal/engine/futures_lease.go:363-382 | A run in which recovery counts another's lease as its own. |
| `FuturesLease.ReceivingCovers` | internal/engine/futures_controller.go:181-193 | The reserved tons cover every outstanding lot. |
| `FuturesLease.NothingReceiving` | internal/engine/futures_controller.go:181-193 | With no bid outstanding, nothing is reserved. |
| `LeaseController.Manager.IsRun` | internal/engine/futures_lease.go:96-382 | Whatever the lease methods have done is a legal run. |
| `LeaseController.Manager.ReceivingReserved` | internal/engine/futures_controller.go:181-193 | The loop's total is the sum of the outstanding bids at the port. |
| `LeaseController.Manager.LeaseFloor` | internal/engine/futures_lease.go:167-181 | The floor is the larger of the baseline, of what stock, locks and incoming lots need, and of the target of a change pending at the port. |
| `LeaseController.Manager.StageCapacity` | internal/engine/futures_lease.go:96-148 | Leases exactly the need, goes straight to the admission when it is already leased, or rejects the admission. |
| `LeaseController.Manager.StageLease` | internal/engine/futures_lease.go:150-165 | The terms are saved before the request is staged. |
| `LeaseController.Manager.ReleaseLease` | internal/engine/futures_lease.go:183-218 | Stages the first release that gives anything back; otherwise no holding is above its floor. |
| `LeaseController.Manager.LeasePreflight` | internal/engine/futures_lease.go:220-282 | Passes exactly when the lease is unchanged and the target is still safe or still needed. |
| `LeaseController.Manager.FinishLease` | internal/engine/futures_lease.go:284-299 | The holding becomes the change's terms, or goes when the target is the baseline. |
| `LeaseController.Manager.RefuseLease` | internal/engine/futures_lease.go:329-361 | A refusal leaves holdings alone and, unless it was about authorization, rejects the admission. |
| `LeaseController.Manager.ReconcileLease` | internal/engine/futures_lease.go:363-382 | Recovery finishes exactly when the warehouse shows the target. |
| `CompanyFlows.EverySyncMatchesScratch` | internal/engine/company_flows.go:55-143 | After every sync in every run, the rows of the ledger are those a classification from scratch includes, no claimed bill is stored and older history stays. |
| `CompanyFlows.EverySyncAmountsExactly` | internal/engine/company_flows.go:101-114 | After every sync of every run, amounts agree exactly when no included row's accounts have changed hands. |
| `CompanyFlows.GrowingAmountsAgree` | internal/engine/company_flows.go:101-114 | While the owned accounts only grow, amounts agree as well. |
| `CompanyFlows.StaleSign` | internal/store/company_flows.go:52-63 | A run that leaves a row with its old sign. |
| `CompanyFlows.SyncAt` | internal/engine/company_flows.go:96-143 | What one pass makes of each identity, in the database and in memory. |
| `CompanyFlows.Recorder.RecordCompanyFlows` | internal/engine/company_flows.go:55-143 | The loops compute that pass; a failed sync changes nothing; claims are neither lost nor invented. |
| `CompanyFlows.Recorder.ReleaseClaims` | internal/engine/company_flows.go:115-124 | Each undecided claim is removed once. |
| `CompanyFlows.Recorder.Prune` | internal/engine/company_flows.go:137-141 | Only what left the ledger unclaimed is forgotten. |
| `Observation.ServerBoundsExact` | internal/engine/clock.go:12-19 | True server time lies within the bounds exactly when the clock was read inside its request envelope. |
| `Observation.ObservationSound` | internal/engine/market_events.go:65-82 | A book read inside its envelope was read within the computed bounds. |
| `Observation.DecodeMarketShocks` | internal/engine/market_events.go:30-49 | The loop returns the temporary, located shocks in order, or nothing when any event is malformed. |
| `Observation.ShocksExactly` | internal/engine/market_events.go:36-41 | Decoding fails exactly when some event is malformed, and otherwise knows all the temporary located events and no others. |
| `Observation.MarketShockOverlapping` | internal/engine/market_events.go:51-61 | Finds the first overlapping shock. |
| `Observation.NoShockWithin` | internal/engine/market_events.go:51-61 | No overlap means no shock was in force at any time in the interval. |
| `Observation.ShockedReadIsSeen` | internal/engine/market_events.go:51-82 | A book read during a known shock is seen to overlap one. |
| `BookMemory.GatherClean` | internal/engine/book_memory.go:93-132 | Every retained baseline and drift sample comes from readings outside the shocks that could be decoded at the time. |
| `BookMemory.StruckStoredExactly` | internal/engine/book_memory.go:55-113 | A book read while a recorded shock was in force is stored afresh exactly when some recorded event is malformed. |
| `BookMemory.UndistortedExactly` | internal/engine/book_memory.go:93-113 | From undistorted baselines a capture gives undistorted ones exactly when every recorded event can be read or none was in force at a listing it read. |
| `BookMemory.SamplesUndistorted` | internal/engine/book_memory.go:114-132 | From undistorted baselines no drift sample is distorted, malformed events or not. |
| `BookMemory.MalformedStores` | internal/engine/market_events.go:36-39 | A malformed event about another port lets in a book read during a recorded shock, which stays out without it. |
| `BookMemory.GatherDecides` | internal/engine/book_memory.go:93-113 | Exactly the untouched listings are stored afresh, exactly the touched ones with an untouched older baseline keep it. |
| `BookMemory.LateShockStays` | internal/engine/book_memory.go:100-111 | A book read during a shock that is known by now stays the baseline exactly when that shock had ended by the book's own date. |
| `BookMemory.LateShockDrifts` | internal/engine/book_memory.go:114-119 | It gives a drift sample under exactly the same condition. |
| `BookMemory.LateShockMissed` | internal/engine/book_memory.go:100-111 | A late-reported shock can leave a distorted baseline. |
| `BookMemory.ChangeIsFloor` | internal/engine/book_memory.go:120-128 | The change in basis points is rounded down, so falls are never understated. |
| `BookMemory.QuayMemory.RecordPort` | internal/engine/book_memory.go:77-132 | A newer current quay capture replaces the port's book; anything else changes nothing. |
| `BookMemory.QuayMemory.RecordQuayBooks` | internal/engine/book_memory.go:54-163 | A pass decodes its shocks from the recorded events; it keeps the memory clean of them, young and within its limits, keeps baselines undistorted when every event can be read or none was in force, and samples always; without a clock it does nothing. |
| `BookMemory.QuayMemory.TrimDrift` | internal/engine/book_memory.go:153-162 | Drops the samples a known shock crosses, then all but the last 200. |
| `BookMemory.QuayMemory.AgeMemory` | internal/engine/book_memory.go:139-152 | Drops baselines over twelve game days and ports left empty. |
| `Depth.DepthCapacity` | internal/engine/liquidity.go:11-24 | The saturating loop is the capped true capacity. |
| `Depth.DepletionTheorem` | internal/engine/liquidity.go:26-53 | Reserving r leaves max(0, capacity - r) at every limit. |
| `Depth.DepletionComposes` | internal/engine/liquidity.go:26-53 | Reserving a and then b leaves the same book as a + b. |
| `Depth.DrainShape` | internal/engine/liquidity.go:41-52 | Depletion moves no level and changes no price. |
| `Depth.DepleteDepth` | internal/engine/liquidity.go:26-53 | The copying form computes that depletion and leaves the caller's book as it was. |
| `Depth.ReserveBidLevels` | internal/engine/book_memory.go:343-361 | The in-place form agrees with the copying one on bids. |
| `Depth.ReserveGrowthBook` | internal/engine/growth_continuation.go:40-66 | Each book becomes its own reservation, stores charged to provisions, and no observed array changes. |
| `Depth.ReservedExecutable` | internal/engine/growth_continuation.go:40-66 | Every limit sees the book less what was reserved on each side. |
| `Depth.RetainedBookBids` | internal/engine/book_memory.go:175-195 | The bounded insertion returns the first ten of the stable descending sort of valid foreign levels. |
| `Depth.InsertIntoBest` | internal/engine/book_memory.go:181-193 | Where a bid falls among the ten best decides where it falls in the whole order. |
| `Ordering.StableSortUnique` | internal/engine/liquidity.go:38-40 | Sortedness and stability determine the result, so any correct stable sort returns this one. |
| `Ordering.SortStable` | internal/engine/liquidity.go:38-40 | Ties keep their order. |
| `Pence.GrowthCashTotal` | internal/engine/growth.go:139-148 | The early-stopping loop is the capped true total, or the sentinel for a negative term. |
| `Pence.CashTotalPermuted` | internal/engine/growth.go:139-148 | The order of the terms does not matter. |
| `Pence.CashTotalNested` | internal/engine/growth.go:139-148 | Nor does nesting one total in another. |
| `Pence.CashTotalBelowSentinel` | internal/engine/growth.go:139-148 | Below the sentinel exactly when all terms are nonnegative and the true sum is below it. |
| `Pence.CheckedProductExact` | internal/engine/income_funding.go:78-83 | The overflow guard gives the capped product. |
| `Pence.IocCashExact` | internal/engine/income_funding.go:85-100 | The split computation equals the capped rational formula. |
| `Pence.IocCashCoversEveryFill` | internal/engine/income_funding.go:85-100 | It covers every partition of the order into fills at or below the limit, customs rounded up per fill. |
| `Pence.HazardChargeExact` | internal/engine/hazard.go:69-85 | The 128-bit form is the exact ceiling whenever that fits, and a refusal otherwise. |
| `Pence.WorstCustomsExact` | internal/engine/growth.go:103-137 | The worst-case customs split is the exact ceiling. |
| `Pence.SplitFloorExact` | internal/engine/growth_capacity.go:112-123 | Splitting quotient and remainder gives the exact floor without overflow. |
| `Pence.SafeFloorsExact` | internal/engine/loan_refinance.go:494 | The 7/20 exposure, 9/10 instalment and fee floors are exact over all nonnegative values. |
| `Freight.StopsExact` | internal/engine/freight.go:13-43 | Each outstanding destination once, at its earliest deadline, tightest first. |
| `Freight.FreightStops` | internal/engine/freight.go:13-43 | The loops compute that list. |
| `Freight.Rotate` | internal/engine/freight.go:57-69 | The in-place rotation brings the destination's stop to the front. |
| `Freight.RotatedPermutes` | internal/engine/freight.go:57-69 | It loses no stop. |
| `Freight.FreightDepartureAt` | internal/engine/freight.go:57-111 | Passes exactly when every leg is sailable and every stop is in time with its margin. |
| `Freight.DepartureMeetsAll` | internal/engine/freight.go:86-110 | Passing means every unsettled obligation, not only the stops, is reached strictly before its deadline. |
| `Freight.ValidateFreightDeparture` | internal/engine/freight.go:45-55 | Nothing outstanding leaves without clock authority, and an empty list always may. |
| `Idle.EarnedWithinMovement` | internal/engine/idle.go:38-118 | Earned hours never exceed the hour's upward movement between adjacent validated frames since the ship was busy or moved. |
| `Idle.EarnedWithinElapsed` | internal/engine/idle.go:38-118 | While the hour never decreases, they never exceed the hours elapsed at the port. |
| `Idle.EarnsExactly` | internal/engine/idle.go:66-110 | What one frame earns, and exactly when. |
| `Idle.GapsEarnNothing` | internal/engine/idle.go:66-102 | Gaps, replays and regressions earn nothing. |
| `Idle.EligibleMeansIdle` | internal/engine/idle.go:128-138 | An eligible ship has been idle at that port for at least the hours asked. |
| `Idle.Fleet.RecordShipIdle` | internal/engine/idle.go:38-118 | A pass steps each listed ship's record, forgets unlisted ones and leaves the rest alone. |
| `Pager.ReadLoanHistoryPages` | internal/engine/loan_history_pages.go:25-121 | Succeeds exactly on a list that some page ends within every budget, and then returns all rows, no identity twice, in an encoding that fits. |
| `Pager.ChargeRow` | internal/engine/loan_history_pages.go:71-96 | The running charge never exceeds what is left, and is refused exactly when the row does not fit. |
| `Pager.MarshalFits` | internal/engine/loan_history_pages.go:78-96 | A row's charge covers its compacted, escaped encoding, exactly so without blanks. |
| `Pager.ChargeCovers` | internal/engine/loan_history_pages.go:32-97 | The total charge covers the encoded array, separators and brackets included. |
| `Pager.ReadRow` | internal/engine/loan_history_pages.go:66-104 | A row is taken exactly when it fits and repeats no identity. |
| `Pager.ReadPage` | internal/engine/loan_history_pages.go:44-108 | A page is taken exactly when it is well formed and within every budget. |
| `Ranking.BetterStrictWeakOrder` | internal/engine/growth_capacity.go:279-298 | On marked and accepted candidates the comparison is a strict weak order. |
| `Ranking.UnfundedStrictWeakOrder` | internal/engine/growth_capacity.go:1320-1333 | Among candidates that were not accepted, the scan's comparison, viable first and by financed return, is a strict weak order. |
| `Ranking.UnacceptedCandidatesCycle` | internal/engine/growth_capacity.go:279-298 | Across acceptance the cash comparison by itself is no order: three candidates beat one another in a circle, so the scan has to decide acceptance first. |
| `Ranking.MarkCapacityCompetition` | internal/engine/competition.go:243-259 | Marks, in place, exactly the candidates within five percent of the best return. |
| `Ranking.BestCandidate` | internal/engine/growth_capacity.go:1320-1333 | The running best is accepted if any is, and no accepted one beats it; else viable if any is, and no viable one beats it in financing; else beaten by none. |
| `Ranking.ChooseCandidate` | internal/engine/growth_capacity.go:1320-1333 | Marking and scanning together pick such a candidate from any list. |
| `Ranking.ComparePairsTotal` | internal/engine/growth_factor.go:183-211 | A strict total order on pairs of distinct yards. |
| `Ranking.SortedPairsStrict` | internal/engine/growth_factor.go:183-211 | The sort loses no pair, leaves no tie and puts the nearly best first. |
| `Ranking.SortExpansionPairs` | internal/engine/growth_factor.go:183-211 | The in-place sort computes that order from the anchored best. |

## Left out

- HTTP, PostgreSQL, configuration, logging, the console and the web files.
- JSON decoding, hashing of identities and credential encryption: identities are tuples, taken to be injective.
- Concurrency: account ownership already serializes dispatch, so one executor with crashes is modelled.
- Repetitions of a request inside Go's HTTP transport, within one attempt of the client: only borrowing switches them off (internal/gameapi/client.go:300-303), and the model counts the client's own attempts.
- Database commits whose outcome is unknown: a failed write is taken not to have happened.
- Mission kinds of their own: `Journal` keeps ordinary missions, retained controls and the maintenance trip; commissions, passengers and bulletins repeat the pattern with more fields.
- Commissions and passengers, which decide an absence by the process's own clock instead of the answer time of a list.
- The test that no borrower request of our own is open before a refinance row is replayed: the model replays more often than the source.
- Bulletin and voyage-insurance preflights: a preflight is a decision of the environment.
- The rolling returns and backoffs of marque zones, the exposure map and the choice among zones: an admission's other inputs are free.
- The match of a new marque record to its request: a matching record is taken to be the request's own.
- Marque prices: the charge is taken to equal the quote read just before the first send.
- The annuity, cash and quote arithmetic of a refinance: whether one is needed, quoted and funded is a decision of the environment.
- Refinance.OneRequestPerInstalment: does not count requests refused for authorization or rate limits (401, 403, 429), which are staged again for the same instalment by design.
- Refinance.OneRequestPerDueDate: does not count them either, so a due date may see the transport of one more request for each that was refused so.
- LeaseController.Manager.ReconcileLease: looks at the warehouse as it is now, where the source also waits for a read later than the time it started to observe.
- LeaseController.Manager.LeasePreflight: whether the admission, its margin and its rent are still covered is a decision of the environment.
- The legacy Amsterdam futures cohort, and the admission, settlement and stock exit of futures.
- The remittance fee rows of the cash-flow history, which no ledger entry carries.
- Shock policy for prices and arrivals, gossip and calibration rates, and the age of remembered books in revenue.
- The in-place sort inside the book and itinerary methods is one step: the library's stable sort, which Ordering.StableSortUnique pins down.
- Addition of funding fees and cargo requirements to plans, mission cash reservations and voyage planning.
- Floating-point rounding: rates and days are reals; a hull's speed is taken to be positive.
- String order of ports and yards: they are numbered in that order.
