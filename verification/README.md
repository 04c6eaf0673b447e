# Verified model of the YTM local executor

This project models the part of the YTM executor that can lose money: what happens to a leased
command between the lease and the report, what is sent to OKX, what the local risk gate knows, and
what reaches YTM afterwards.

* `Lifecycle` is the lease loop as a state machine. Its events are a lease, each file read, the two
  gates, the adapter call, the save, the delivery, a crash at any point, a policy edit, and a
  reconciliation snapshot; runs are arbitrary sequences of them. The exchange answers anything, and
  keeps a book of accepted orders under (instrument, client order id), whether or not its answer
  arrives. `Provenance`, `Acknowledgements` and `WriteOnce` prove what holds over all runs, `Relapse`
  and `Witness` what does not.
* `OkxAdapter`, `OkxProtection`, `OkxReplies`, `OkxOrders` and `OkxBracket` are one placement attempt:
  gates, lookup, placement, protection check and remediation, and the order parameters. `OkxClient`
  is the same attempt as a program over a stateful API, and `Executor` the processing of a lease as
  a program over files and that API; both are proved equal to the specification.
* `Context28`, `Grid`, `DecimalText` are Python's decimal arithmetic and text; `OkxContext` connects them
  with the sizes and prices of orders.
* `Risk`, `GateFields`, `PolicyPersistence`, `RiskHistory` are the policy, its file, the gate, what it asks
  of a command's fields, and the risk-state file.
* `Preflight`, `Payloads`, `ExecutionStore`, `OrderRequests`, `CloseSources`, `BinanceOrders` are the
  remaining decisions: gates and validation records, result payloads and the secret guard, the
  durable store, request normalization, fill labels, and the Binance filters.

A Python call is a `Try`: a value, a `ValueError` (which becomes a rejection), or a `Crash` (any
other exception, which ends the attempt with nothing recorded).

## What is assumed

* Of the exchange, and only where a statement says so: `NeverTwice` (when the adapter runs, looking
  up an order that exists finds it, or a duplicate is refused) and `Faithful` (an order id it returns
  is that of an order it holds). The code itself treats a failed lookup as "no such order", so one of
  the first two is needed.
* SHA-256 is an arbitrary function. Only the statements on whose order is meant
  (`Lifecycle.OneKeyOneClientId`, `Acknowledgements.AcknowledgementsNameOwnOrders`,
  `OrderRequests.DifferentCommandsDifferentIds`) suppose that it separates the texts that occur, in the
  digits that are kept. A provider with a colon in its name could share a generated id with another.
* Each file is read and written as a whole; the reconciliation thread is the risk file's only writer.

## Where code and expectations differ

* A command whose order the exchange holds can be reported rejected when it is leased again, because
  every gate comes before the lookup: not only account, leverage and precheck at the exchange, but also
  kill switch, loss limits and credential validation on the host. `Relapse.RejectedAgainExactly` says
  when, `Relapse.AcceptedThenRejected` and `Witness` give histories.
* Even within one attempt an accepted order can be reported rejected: exactly when the answer to
  placing it arrives malformed, a gateway page or a row without an order id
  (`Acknowledgements.AcceptedStepRejectedExactly`, `Witness.MalformedAnswerIsReportedRejected`). Only an
  order that a well-formed answer has named is never rejected (`OkxAdapter.RejectedExactly`).
* `docs/PROTOCOL.md:124-125` says an open position without protection is reported `unprotected`; the
  code first tries to place a stop-loss and reports `unprotected` only if that fails. The model
  follows the code.
* `README.md:300` says real commands are rejected in this build; the code places real OKX orders when
  enabled. The model follows the code.
* A kill switch set after the final reload does not stop that attempt: `Provenance.StoppedRunPlacesExactly`
  says exactly which orders still go out, `Witness.KillSwitchComesTooLate` is a history with one.
* A stop-loss placed by remediation carries no take-profit, so a later attempt at the same order does not
  recognize it: it tries the same stop again, and can report the order unprotected although the stop is
  in place (`OkxAdapter.SecondAttemptRepeatsStop`).
* A first equity of zero makes the risk file unreadable for good, and a later zero leaves the current
  equity at its previous value (`RiskHistory.ZeroFirstEquityBricks`, `RiskHistory.ZeroEquityIsStale`;
  `RiskHistory.PlainSummaryExactly` is the exact condition).
* A mode such as " real " counts as real for placing but not for storing the result
  (`WriteOnce.PaddedModeIsNotStored`); the identity "token" makes the store unreadable
  (`ExecutionStore.TokenBricksTheStore`).
* A loss limit of more than 28 digits can change when the policy is written, and a decision with it
  (`PolicyPersistence.LongLimitChangesDecision`).
* The bracket of a market order is checked against a limit price it may carry, and otherwise against
  the reference price, never against the price sent. A high stray limit lets a stop-loss above that
  price through, a low one a take-profit below it; and without one a take-profit may lie between the
  reference price and the slippage cap (`OkxBracket.NearTargetBreaksBracket`).
  `OkxBracket.MarketBracketExactly` says when the bracket holds.
* A market sell that allows 10000 bps or more goes out at a price that is not positive, and so does a
  market buy of less than a tick with a stray limit price (`OkxBracket.PositivePriceExactly`).
* A negative Binance market step size is not refused, and rounds quantities up
  (`BinanceOrders.BackwardStepGetsThrough`).

## Model

| member | source | states |
|---|---|---|
| `Lifecycle.AtMostOnce` | src/ytm_executor/cli.py:351-403 | Over every run of leases, re-leases, crashes, retries, policy edits and snapshots, no two accepted orders share an (instrument, client order id) key, every accepted key stays in the exchange's book, and each acceptance carries the key its command determines. Assumes, at each adapter call, a truthful lookup or an exchange that refuses duplicates. |
| `Lifecycle.AtMostOncePerCommand` | src/ytm_executor/adapters.py:124-131 | Under the same assumption, two acceptances for commands that normalize to the same order are one and the same: however often a command is leased, it leads to at most one accepted order. |
| `Lifecycle.DistinctStep` | src/ytm_executor/okx_swap.py:140-151 | One step keeps accepted keys distinct, and no order in the book disappears or changes its name. |
| `Lifecycle.HonestStep` | src/ytm_executor/preflight.py:101-108 | In every step, an attempt past the first gate works on the request its own command normalizes to, and every acceptance is in the book under its command's key. |
| `Lifecycle.StepFrame` | src/ytm_executor/cli.py:258-275 | Who writes what: only the adapter call touches book, trace and placements; the policy file changes only by an edit, the risk file only by a snapshot, the store only by a save, reports only by a delivery. |
| `Lifecycle.StepAdvances` | src/ytm_executor/cli.py:382-396 | An attempt reaches each phase only from the one before, with what the policy and risk files held at that moment and through the gate of that phase. |
| `Lifecycle.OkxStep` | src/ytm_executor/okx_swap.py:140-151 | The adapter step places at most the one order the gates produced, enters it in the book exactly when the exchange accepts it, and settles on the decision that follows from the attempt. |
| `Lifecycle.ParamsKey` | src/ytm_executor/okx_swap.py:434-444 | Every attempt at a request places under the same key: its instrument and the client order id derived from the request. Two commands have one key only if their client order ids are one (`Lifecycle.OneKeyOneClientId`). |
| `Lifecycle.OneKeyOneClientId` | src/ytm_executor/okx_swap.py:898-900 | Commands with one key have one client order id, if the digest separates the two ids in its first 29 digits; so commands with different client order ids have different keys. |
| `Lifecycle.OrdersWereAccepted` | src/ytm_executor/okx_swap.py:434-454 | Over every run, each order in the exchange's book was accepted for a command whose key is the one it is held under. |
| `OkxOrders.ExchangeIdExactly` | src/ytm_executor/okx_swap.py:898-900 | The exchange's ids of two client order ids are equal iff the first 29 digits of their digests are; they have at most 32 characters. |
| `OkxOrders.AlgoIdExactly` | src/ytm_executor/okx_swap.py:903-905 | The same for the ids of stop-loss orders of one kind, over 27 digits. |
| `OkxOrders.BracketIdExactly` | src/ytm_executor/okx_swap.py:908-925 | The ids of two attached brackets are equal iff the first 27 digits of their digests are, and none is the id of a stop-loss placed later. |
| `OkxProtection.StopIdExactly` | src/ytm_executor/okx_swap.py:791-818 | The ids of two stop-loss orders are equal iff the first 27 digits of the digests of client order id and order id are. |
| `OrderRequests.DifferentCommandsDifferentIds` | src/ytm_executor/adapters.py:124-131 | Of two commands without a client order id of their own, with colon-free providers, the generated ids are equal iff provider and id texts are, if the digest separates these in its first 32 digits. |
| `OrderRequests.OwnClientOrderIdKept` | src/ytm_executor/adapters.py:124-131 | A client order id that the command brings along is kept. |
| `Texts.StripCutsSpace` | src/ytm_executor/adapters.py:219-223 | Stripping a text cuts off the white space at both ends, all of it, and nothing else. |
| `JsonValues.TextOfExactly` | src/ytm_executor/okx_swap.py:1108-1112 | An optional text is there iff the value is a string that is not blank, and is then that string stripped. |
| `Provenance.EverythingSourced` | src/ytm_executor/cli.py:382-396 | In every run, whatever interleaves, every attempt under way and every placement goes back to policy and risk files as they stood when they were read, in the order first policy, risk state, reloaded policy, adapter call. |
| `Provenance.EveryPlacementLicensed` | src/ytm_executor/preflight.py:88-164 | Every placement of every run: both policy reads were configured, enabled, not kill-switched, not paper-only and within limits; real orders were enabled on the host; the command was attested; provider, account mode and level, instrument, leverage and precheck gates had passed; the lookup had missed. |
| `Provenance.StoppedPolicyStopsPlacements` | src/ytm_executor/preflight.py:128-156 | While the policy on disk is stopped (kill switch, disabled, paper-only or unreadable), an attempt that has not passed the final reload never places; one that has passed it places at most once, and it is the only one. |
| `Provenance.StoppedRunPlacesExactly` | src/ytm_executor/preflight.py:128-164 | Exactly what a stopped policy does not stop: over a run in which the policy is stopped throughout, an order goes out iff an attempt was past its final reload when the run began, the run comes to its adapter call without a crash, and gates and lookup let the order go out. |
| `Provenance.PlacesStepExactly` | src/ytm_executor/okx_swap.py:113-151 | Whatever the policy on disk, a step places an order iff it is the adapter call of an attempt past its final reload, and gates and lookup let the order go out. |
| `Provenance.StaysCleared` | src/ytm_executor/preflight.py:128-164 | Only the adapter call and a crash take an attempt out of the phase past its final reload; an edit of the policy does not. |
| `Witness.KillSwitchComesTooLate` | src/ytm_executor/preflight.py:128-164 | A concrete history: the command passes its reload, the kill switch is set, no order has gone out; the adapter call places the order under the kill switch, and the exchange takes it. |
| `Provenance.FileFollowsHistory` | src/ytm_executor/risk.py:190-215 | In every run the risk file is the fold of the snapshots captured so far. |
| `Provenance.DrawdownSafety` | src/ytm_executor/risk.py:295-309 | Every placement of every run: in the equities observed up to its risk-state read, first-of-day minus last-of-day is below the daily limit and first-ever minus the last non-zero one below the drawdown limit, for both policies read; with a daily limit and no equity that day there is no placement. |
| `Acknowledgements.AcknowledgementsBacked` | src/ytm_executor/preflight.py:193-213 | Over every run against a faithful exchange that accepts no order twice, each acknowledgement of a real command, decided, stored or reported, names the order that the exchange holds under the key of a command attempted under the same identity. |
| `Acknowledgements.AcknowledgementsNameOwnOrders` | src/ytm_executor/okx_swap.py:140-162 | Under the same assumptions, and if the digest separates the client order ids that occur in the run: each acknowledged order, found or placed, was accepted for a command with the client order id of a command attempted under that identity. |
| `Acknowledgements.AdapterOutcome` | src/ytm_executor/okx_swap.py:152-187 | When the adapter returns, the attempt ends acknowledged and its payload names exactly the order the book holds under the attempt's key. |
| `Acknowledgements.RecoveryStep` | src/ytm_executor/okx_swap.py:142-151 | An attempt whose lookup finds the order places nothing, leaves the book alone, and is acknowledged with that order's name or lost, never rejected. |
| `Acknowledgements.AcceptedStepRejectedExactly` | src/ytm_executor/okx_swap.py:140-154 | An order that the exchange accepts in this very attempt is rejected all the same iff the answer to placing it arrives and is no well-formed acceptance with an order id. |
| `WriteOnce.StoredIsFinal` | src/ytm_executor/cli.py:369-381 | Once a result is stored, over every later run: each report for that command repeats it, the exchange is never called for it again, and the record stays, or the store as a whole becomes unreadable. |
| `WriteOnce.StoredIsFound` | src/ytm_executor/execution_store.py:28-67 | If no leased identity reads like a secret key, the stored record is found after every later run. |
| `WriteOnce.SavedExactly` | src/ytm_executor/cli.py:397-402 | Saving stores exactly the acknowledged decisions of commands whose raw mode is the text real, and leaves the store as it was otherwise; what is stored is then found, or, under an identity that reads like a secret, nothing is found any more. |
| `WriteOnce.PaddedModeIsNotStored` | src/ytm_executor/cli.py:397-402 | Of all modes that strip to real, and so are real to preflight, exactly the bare word has its acknowledgement recorded. |
| `WriteOnce.PaddedModeExists` | src/ytm_executor/preflight.py:401-402 | There are padded modes: one with a space on either side. |
| `Relapse.RejectedAgainExactly` | src/ytm_executor/cli.py:367-403 | A command whose order the exchange holds, leased again without a stored result and against a truthful lookup, is reported rejected iff a gate before the lookup refuses it: the first local gate, the second one, or one at the exchange (or, for a command that names another adapter, iff that adapter's outcome rejects it). |
| `Relapse.ScreeningRejectsExactly` | src/ytm_executor/preflight.py:59-127 | In any interleaving, screening rejects iff the first gate refuses. |
| `Relapse.ReloadRejectsExactly` | src/ytm_executor/preflight.py:128-156 | In any interleaving, the reload rejects iff the second gate refuses on the policy then on disk. |
| `Relapse.CallRejectsExactly` | src/ytm_executor/okx_swap.py:113-142 | In any interleaving, an adapter call whose lookup does not miss rejects iff a gate at the exchange refuses. |
| `Relapse.StoppedPolicyRejectsHeldOrder` | src/ytm_executor/preflight.py:88-100 | For instance: under a kill switch set after acceptance, the command is reported rejected while the exchange holds its order, whatever the exchange would answer. |
| `Relapse.AcceptedThenRejected` | src/ytm_executor/okx_swap.py:122-142 | For every command that reaches the adapter: its order is accepted, the answer is lost, the account check fails on the next lease, and the command is reported rejected with its order in the book. |
| `Witness.AcceptedOrderIsReportedRejected` | src/ytm_executor/okx_swap.py:122-142 | A rejection on the next lease on one concrete history, from the first file on disk: the order of this command is in the exchange's book, and the command is reported rejected. |
| `Witness.MalformedAnswerIsReportedRejected` | src/ytm_executor/okx_swap.py:142-154 | A rejection in the very attempt on one concrete history, against an exchange that is truthful and faithful throughout: the order is accepted, the answer is no acceptance, and the command is reported rejected with the order in the book. |
| `Witness.GatesPass` | src/ytm_executor/preflight.py:60-164 | A concrete limit order passes both gates on a host with a fresh validation, a live policy and no limits. |
| `Witness.OrderGoesOut` | src/ytm_executor/okx_swap.py:113-151 | ... and is placed, against concrete answers of the exchange. |
| `Relapse.AlikeStep` | src/ytm_executor/cli.py:382-396 | An attempt depends only on the files and its phase: two worlds that agree on these go on alike. |
| `Executor.Executor.ProcessLeaseResponse` | src/ytm_executor/cli.py:351-403 | Processing a lease, with its cache hit, reads, preflight, save and report, leaves files, exchange book, calls and reports exactly as the corresponding run of the state machine does. |
| `Executor.Executor.CaptureSnapshot` | src/ytm_executor/risk.py:190-215 | Capturing a snapshot changes the risk file as the state machine says, and nothing else. |
| `Executor.Executor.PreflightCommand` | src/ytm_executor/preflight.py:46-190 | The preflight method's decision, calls and effect on the book are those of the screening, reload and adapter steps. |
| `Executor.ProcessedIsARun` | src/ytm_executor/cli.py:351-403 | The whole processing of a lease is a run of nine events of the state machine. |
| `OkxClient.PrepareOrderAtExchange` | src/ytm_executor/okx_swap.py:112-187 | The placement method makes exactly the calls of its specification, in order, returns its outcome, and adds to the exchange's book the one order placed if it is accepted. |
| `OkxClient.CheckGates` | src/ytm_executor/okx_swap.py:113-141 | Account, instrument, leverage, parameters and precheck are asked for in this order, stopping at the first failure, as specified. |
| `OkxClient.VerifyOrRemediate` | src/ytm_executor/okx_swap.py:457-546 | The protection check makes the calls and gives the report of its specification. |
| `OkxClient.MatchingPendingProtectionFromApi` | src/ytm_executor/okx_swap.py:579-601 | The search over the four algo order types asks and answers as specified, stopping at the first match or failure. |
| `OkxClient.MatchingPendingProtection` | src/ytm_executor/okx_swap.py:676-702 | The loop over pending algo orders returns the first matching one. |
| `OkxClient.MatchingOpenPosition` | src/ytm_executor/okx_swap.py:705-718 | The loop over positions returns what the search is specified to: see `OkxProtection.OpenPositionExactly`. |
| `OkxAdapter.PlacesExactly` | src/ytm_executor/okx_swap.py:113-151 | An attempt places iff it passed every exchange gate and the lookup missed; then it places exactly one order, the normalized one, and the account, instrument, leverage and precheck answers were as required. |
| `OkxAdapter.RejectedExactly` | src/ytm_executor/okx_swap.py:140-187 | An attempt is rejected iff a gate rejects it, or the order was not found and the answer to placing it was no well-formed acceptance; once the exchange has named the order in a well-formed answer it never is. |
| `OkxAdapter.AcknowledgedMeans` | src/ytm_executor/okx_swap.py:140-187 | An acknowledged attempt passed all gates, names the order id of the row found or placed, says truly whether it was recovered, and carries the report of the protection check on that row. |
| `OkxAdapter.RecoveryPlacesNothing` | src/ytm_executor/okx_swap.py:142-151 | If the lookup finds the order, nothing is placed and its order id is the one reported. |
| `OkxAdapter.RealOpenIsExamined` | src/ytm_executor/okx_swap.py:457-471 | An acknowledged opening order is never reported as not requiring protection, and its report means what the exchange's answers showed. |
| `OkxAdapter.GatesSound` | src/ytm_executor/okx_swap.py:354-402 | Passing the gates means that the answers, read exactly as `OkxReplies.AccountConfig` and the other readers say, show net mode, the account level stated, live rules for the requested instrument, confirmed leverage when requested, and a passed precheck unless the level is 2. |
| `OkxAdapter.PrecheckByLevel` | src/ytm_executor/okx_swap.py:354-371 | From the answer itself: with level 3 in the first account row an order is placed only after the precheck of that very order was asked for and answered with success; with level 2 the precheck is never called; with any other level, or a mode other than net, nothing is placed. |
| `OkxAdapter.PlacementSequence` | src/ytm_executor/okx_swap.py:122-151 | A placement is the sequence account, instrument, leverage if requested, precheck at level 3, lookup under the order's own key, the order, and then calls of the protection check only. |
| `OkxAdapter.ReportedIdIsTheRows` | src/ytm_executor/okx_swap.py:152-154 | The order id an acknowledged attempt reports is the text, not blank, that the exchange's row gives as ordId; result code and message are the row's. |
| `Payloads.AdapterPayloadPasses` | src/ytm_executor/okx_swap.py:163-187 | Whatever the exchange answered, the secret guard on the adapter's payload never fires. |
| `Payloads.AdapterPayloadNames` | src/ytm_executor/okx_swap.py:163-179 | The adapter's payload says which order it is, under both ids, whether it was found again, and the protection status, whose texts `Payloads.StatusTexts` tells apart. |
| `Payloads.StatusTexts` | src/ytm_executor/okx_swap.py:457-576 | Each of the six status texts is used for one kind of report, and for no other. |
| `Payloads.ReportedStatusSound` | src/ytm_executor/okx_swap.py:163-179 | Over any answers, protectionStatus and the status inside protection are one text, and it says what was seen: protected only with a live linked algo order, pending_activation only without an open position, protected_remediated iff the one stop placed was taken, unprotected iff it was not, and only for an open position. |
| `Payloads.ReportedOrderIsSent` | src/ytm_executor/okx_swap.py:874-895 | The normalized order that is reported has instrument, type, side, margin mode, size, price and reduce-only flag of the order sent. |
| `Payloads.ReportedBracket` | src/ytm_executor/okx_swap.py:626-657 | The trigger prices reported with the protection are those of the bracket sent. |
| `Payloads.RejectionSays` | src/ytm_executor/preflight.py:285-308 | A rejection carries its reason code. |
| `Payloads.AcknowledgementPasses` | src/ytm_executor/preflight.py:193-213 | With a clean adapter payload the guard on the final decision never fires. |
| `Payloads.RejectionPasses` | src/ytm_executor/preflight.py:285-308 | A rejection whose extra fields have harmless names gets out. |
| `Preflight.RefusalsGetOut` | src/ytm_executor/preflight.py:285-308 | Every refusal of either gate gets out, as a rejection. |
| `Preflight.RefusalsSayWhy` | src/ytm_executor/preflight.py:285-308 | ... with the code of the gate that refused. |
| `Payloads.AcknowledgementNames` | src/ytm_executor/preflight.py:209-213 | The acknowledgement of a placed order names its provider order id and carries the adapter's payload as it is. |
| `Preflight.DecisionFollowsAdapter` | src/ytm_executor/preflight.py:157-185 | Once the adapter has returned or refused, there is a decision: acknowledged iff the adapter acknowledged, naming its order. |
| `OkxProtection.ProtectionSound` | src/ytm_executor/okx_swap.py:457-576 | Over any answers, the reported status is what was seen: protected means a live, linked algo order with the expected triggers in one of the four queries; pending activation means no open position; a stop-loss is placed at most once, only for an open position, reduce-only, on the closing side, for all its whole lots. |
| `OkxProtection.OpenPositionIsNeverIgnored` | src/ytm_executor/okx_swap.py:519-546 | From the rows alone: if the first row of the instrument whose pos is not null, empty or zero reads as a number, long or short, and no protecting order was seen, exactly one stop-loss is tried, at the order's stop, buying for a negative pos and selling for a positive one. |
| `OkxProtection.OpenPositionExactly` | src/ytm_executor/okx_swap.py:705-718 | A number is found iff it is what pos of some row of the instrument reads as, not zero, of either sign, and every earlier row of the instrument is null, empty or zero; nothing is found iff every row of the instrument is. |
| `OkxProtection.MatchesExactly` | src/ytm_executor/okx_swap.py:676-702 | A pending order counts as the bracket iff its fields say so: a live state or none, the trigger texts, market order prices, and one of the two ids. |
| `OkxProtection.RefusalExactly` | src/ytm_executor/okx_swap.py:660-673 | Attached protection counts as refused iff the first entry for it in the exchange's answer has a failure code. |
| `OkxProtection.AsksForAllKinds` | src/ytm_executor/okx_swap.py:579-601 | A search for the bracket that finds nothing has asked for conditional, oco, trigger and trailing orders. |
| `OkxProtection.WireTextReads` | src/ytm_executor/okx_swap.py:1093-1094 | A price on the wire, of either sign and of at most 28 digits, reads as that price. |
| `OkxProtection.RemediationClosesPosition` | src/ytm_executor/okx_swap.py:791-827 | The stop-loss order closes the position and never more than it, leaving less than one lot. |
| `OkxProtection.StopSizePositiveExactly` | src/ytm_executor/okx_swap.py:791-818 | The stop-loss order is for a positive size iff the position is at least one lot. |
| `OkxProtection.BareStopNeverMatches` | src/ytm_executor/okx_swap.py:676-702 | A pending order without a take-profit, as a stop placed by remediation is, is never taken for the bracket of an order with one. |
| `OkxProtection.SecondCheckRepeatsStop` | src/ytm_executor/okx_swap.py:721-788 | Checking an order again with its position unchanged and only such stops pending tries the very same stop again, and reports the order unprotected if the exchange does not take it twice. |
| `OkxAdapter.SecondAttemptRepeatsStop` | src/ytm_executor/okx_swap.py:140-162 | The same over a run of two attempts at one order, gates, lookup and placement included. |
| `OkxProtection.FirstMatch` | src/ytm_executor/okx_swap.py:676-702 | A returned algo order matches; with none returned, no row does. |
| `OkxProtection.OpenPosition` | src/ytm_executor/okx_swap.py:705-718 | A returned position is non-zero and some row's; with none returned, no row of the instrument holds one; exactly which is `OkxProtection.OpenPositionExactly`. |
| `OkxProtection.SafeVerify` | src/ytm_executor/okx_swap.py:549-576 | After acceptance no ValueError of the protection check gets out. |
| `OkxBracket.PricesOnGrid` | src/ytm_executor/okx_swap.py:1088-1090 | Price, stop-loss and take-profit of a real opening order are on the tick grid. |
| `OkxBracket.LimitBracket` | src/ytm_executor/okx_swap.py:241-277 | A real limit entry has stop and target on their sides of the price sent; stop equals price only if the raw limit was off-grid. |
| `OkxBracket.MarketBracket` | src/ytm_executor/okx_swap.py:1054-1062 | A real market entry without a limit price has its stop on the losing side of the price sent and its target beyond the reference price. |
| `OkxBracket.MarketStopExactly` | src/ytm_executor/okx_swap.py:985-1005 | For every real market entry, the stop is on the losing side of the price sent iff it is on the losing side of the slippage cap. |
| `OkxBracket.MarketBracketExactly` | src/ytm_executor/okx_swap.py:908-944 | A market entry, with or without a stray limit price, has stop and target around the price sent iff a tick lies between raw stop and slippage cap and none between raw target and cap. |
| `OkxBracket.TickBetweenExactly` | src/ytm_executor/okx_swap.py:1088-1090 | Whether a tick lies between two raw prices can be told from them: the first tick from the one is no later than the last up to the other. |
| `OkxBracket.StrayLimitBreaksBracket` | src/ytm_executor/okx_swap.py:998-1005 | A concrete market order that also carries a limit price is accepted with its stop-loss above the price sent. |
| `OkxBracket.LowStrayLimitBreaksBracket` | src/ytm_executor/okx_swap.py:1021-1028 | A concrete market order with a low stray limit price is accepted with its stop in place and its take-profit below both the market and the price sent. |
| `OkxBracket.NearTargetBreaksBracket` | src/ytm_executor/okx_swap.py:1021-1028 | An ordinary market order without a limit price is accepted with its take-profit beyond the reference price but below the price sent. |
| `OkxBracket.PositivePriceExactly` | src/ytm_executor/okx_swap.py:1054-1062 | The price of a real opening order is positive, except exactly for a market sell of 10000 bps or more and a market buy whose cap is below the first tick. |
| `OkxBracket.MarketBuyIsPositive` | src/ytm_executor/okx_swap.py:998-1005 | Without a stray limit price the latter does not happen. |
| `OkxBracket.SpoiltPricesGetThrough` | src/ytm_executor/okx_swap.py:1054-1062 | Two concrete orders of these kinds are accepted, one at a negative price and one at none. |
| `OkxBracket.RealOpenShape` | src/ytm_executor/okx_swap.py:241-277 | Every real opening order that yields parameters has a price and both triggers, each the rounded raw price, checked against the entry reference. |
| `OkxBracket.NotionalBounds` | src/ytm_executor/okx_swap.py:846-862 | In exact arithmetic, an order sized by its notional is worth at most that notional at its conversion price, and one lot more would exceed it. |
| `OkxBracket.LimitBuySpend` | src/ytm_executor/okx_swap.py:830-871 | In exact arithmetic, a limit buy sized by its notional never spends more than it at the price sent. |
| `OkxBracket.MarketBuySpend` | src/ytm_executor/okx_swap.py:1054-1062 | In exact arithmetic, a market buy's price is within one tick below the slippage cap, and it spends at most the notional plus the allowance. |
| `OkxBracket.MarketSellFloor` | src/ytm_executor/okx_swap.py:1054-1062 | A market sell is never priced below its slippage cap, nor a tick or more above it. |
| `OkxBracket.SizeIsGreatestLot` | src/ytm_executor/okx_swap.py:830-862 | In exact arithmetic, every order's size is the greatest number of whole lots within its amount, positive and not below the exchange's minimum. |
| `OkxBracket.SideAndEffect` | src/ytm_executor/okx_swap.py:241-277 | Every order: opening long or closing short buys; reducing orders are reduce-only, on the closing side and without a bracket; only a plain market order has no price, and no real entry is one. |
| `OkxContext.SizeInContext` | src/ytm_executor/okx_swap.py:830-862 | Computed in the 28-digit context, product, quotient, second quotient and multiple all rounded, the size of a notional is the exact one, if the contract value has at most 28 digits, the number of lots is a fraction with a numerator below a third of 10^27, and the size has at most 28 digits. |
| `OkxContext.NotionalInContext` | src/ytm_executor/okx_swap.py:830-862 | Within these bounds the size of an order by notional, as computed, is the size sent, worth at most the notional, with one lot more exceeding it. |
| `OkxContext.QuantityInContext` | src/ytm_executor/okx_swap.py:830-843 | With quantity and lot of at most 27 digits at a common exponent, the size of an order by quantity, as computed, is the size sent. |
| `OkxContext.LimitPriceInContext` | src/ytm_executor/okx_swap.py:865-871 | The same for the price of a limit entry and the tick. |
| `OkxContext.MarketPriceInContext` | src/ytm_executor/okx_swap.py:1054-1062 | With slippage, multiplier and cap of at most 28 digits, and cap and tick of at most 27 at a common exponent, the bounded price of a market entry, as computed in four rounded operations and a rounding to tick, is the price sent. |
| `OkxContext.MarketBuySpendInContext` | src/ytm_executor/okx_swap.py:830-871 | Within these bounds a market buy by notional, with size and price as computed, spends at most the notional plus the allowance. |
| `OkxReplies.InstrumentRulesSound` | src/ytm_executor/okx_swap.py:294-315 | Instrument rules that are found are those of the first row for the requested instrument: a live swap, with that row's figures, all positive. |
| `OkxReplies.VerifiedLeverage` | src/ytm_executor/okx_swap.py:405-431 | Leverage is verified iff some row confirms the requested leverage, margin mode and, if it names one, instrument. |
| `OkxReplies.LeverageRoundsUp` | src/ytm_executor/okx_swap.py:1097-1099 | The leverage set is the least whole number that covers the requested one, and at least one. |
| `OkxReplies.AccountConfig` | src/ytm_executor/okx_swap.py:387-402 | The account accepted has exactly the level and mode texts of the first row, and it is accepted iff these are level 2 or 3 and net_mode. |
| `OkxReplies.ResponseDataExactly` | src/ytm_executor/okx_swap.py:337-351 | An answer brings rows iff it is an object with code 0 whose data is that list of objects, without secret-like keys at any depth, or is null or empty. |
| `OkxReplies.SingleOrder` | src/ytm_executor/okx_swap.py:374-384 | An answer to placing is the first row, and is refused iff there is none or it has a code other than 0. |
| `OkxReplies.LeverageAsked` | src/ytm_executor/okx_swap.py:280-291 | The leverage asked for is the request's, rounded up, for its instrument and margin mode. |
| `OkxReplies.ResponseData` | src/ytm_executor/okx_swap.py:337-351 | Rows handed on carry no secret-like key; only an endpoint that raises crashes. |
| `OkxReplies.Lookup` | src/ytm_executor/okx_swap.py:434-454 | The lookup is never rejected; it finds an order iff the reply is well formed and its first row carries an order id, and that row is what it finds. |
| `Context28.FloorStepExact` | src/ytm_executor/okx_swap.py:1084-1090 | With value and step positive integers below 10^27 at a common power of ten, divide, floor and multiply in the 28-digit half-even context give exactly the true floor multiple of the step. |
| `Context28.CeilingStepExact` | src/ytm_executor/okx_swap.py:1088-1090 | The same for the ceiling multiple. |
| `Context28.QuotientRounding` | src/ytm_executor/binance_futures.py:329-335 | Under those bounds rounding the quotient to 28 digits moves neither its floor nor its ceiling. |
| `Context28.FloorStepBeyondContext` | src/ytm_executor/okx_swap.py:1084-1085 | Beyond the bounds it fails: a 29-digit value is rounded up by a round-down. |
| `Context28.Round28Error` | src/ytm_executor/okx_swap.py:1084-1090 | Rounding to the context moves a value by at most half a unit in the 28th digit. |
| `Grid.RoundDownGreatest` | src/ytm_executor/okx_swap.py:1084-1085 | Rounding down yields the greatest multiple of the step not above the amount. |
| `Grid.RoundUpLeast` | src/ytm_executor/okx_swap.py:1088-1090 | Rounding up yields the least multiple of the step not below the amount. |
| `Grid.ContextAgreesDown` | src/ytm_executor/okx_swap.py:1084-1090 | The exact rounding used by the model is what the 28-digit context computes, within its bounds. |
| `Grid.ContextAgreesUp` | src/ytm_executor/okx_swap.py:1088-1090 | The same for rounding up. |
| `DecimalText.TextRoundTrip` | src/ytm_executor/okx_swap.py:1093-1094 | Printed amounts are in plain notation, without exponent or trailing fractional zeros, and read back as the value the context keeps. |
| `DecimalText.TextCanonical` | src/ytm_executor/okx_swap.py:692-696 | Two amounts print alike iff the context keeps the same value for both. |
| `DecimalText.TextExact` | src/ytm_executor/okx_swap.py:416-419 | Up to 28 digits the round trip keeps the value, and string equality of the texts is equality of the values. |
| `DecimalText.TextBeyondContext` | src/ytm_executor/okx_swap.py:1093-1094 | At 29 digits two different amounts print alike. |
| `DecimalText.ReadsOwnText` | src/ytm_executor/okx_swap.py:1133-1142 | The general decimal reader reads a printed amount as the printed value. |
| `DecimalText.ReadsSign` | src/ytm_executor/okx_swap.py:1133-1142 | A sign in front of a plain number negates it or does nothing. |
| `DecimalText.ReadsExponent` | src/ytm_executor/okx_swap.py:1133-1142 | An exponent behind a plain number shifts it by that power of ten, up or down. |
| `RiskHistory.FileRefinesHistory` | src/ytm_executor/risk.py:190-215 | For every history of non-negative equities: the file is readable iff the first equity is not zero, and then initial is the first, current the last non-zero, and each day's open and loss are its first equity and the loss from first to last. |
| `RiskHistory.FileSummarizesPositiveHistory` | src/ytm_executor/risk.py:139-215 | With every equity positive the file is the plain summary: first, last, first of day, loss of day, for exactly the days with an equity. |
| `RiskHistory.PlainSummaryExactly` | src/ytm_executor/risk.py:190-215 | The file is that plain summary iff neither the first nor the last equity is zero. |
| `RiskHistory.ZeroEquityIsStale` | src/ytm_executor/risk.py:212-212 | 100 and then 0 on one day still reads as a current equity of 100. |
| `RiskHistory.ZeroFirstEquityBricks` | src/ytm_executor/risk.py:162-167 | A history that begins with an equity of zero makes the file unreadable for good, whatever follows. |
| `RiskHistory.SnapshotUsdEquity` | src/ytm_executor/risk.py:565-583 | The equity of a snapshot is the largest USD or USDT figure among its balances; a single malformed one fails the snapshot. |
| `RiskHistory.CandidateExactly` | src/ytm_executor/risk.py:570-582 | A balance contributes the number that usdEquity, or equity if that is absent, empty or zero, reads as, if it is in USD or USDT and not negative; null and empty figures contribute nothing, and any other figure fails. |
| `RiskHistory.RiskStateFile.Update` | src/ytm_executor/risk.py:190-215 | The update writes the state one snapshot further, and leaves an unreadable file alone. |
| `Risk.GateExactly` | src/ytm_executor/risk.py:248-309 | A real command passes iff the policy is live, the command attested, its market and futures fields acceptable, and the state within the limits. |
| `GateFields.GateByFields` | src/ytm_executor/risk.py:248-309 | In terms of what the command says under each name, the first given deciding: a real command passes iff the policy is live, the limits are kept, YTM attests, a market is given, and for a futures market the margin mode spells cross or isolated, the position mode one_way or is no text, closePosition is not affirmed, and reduceOnly does not contradict the effect. |
| `GateFields.RefusalCodes` | src/ytm_executor/risk.py:256-307 | The code of a refusal names the first condition that fails: of the policy, the attestation, the daily and the total limit. |
| `GateFields.FuturesExactly` | src/ytm_executor/risk.py:349-392 | The futures check on its own, in the same terms. |
| `Risk.GateMonotone` | src/ytm_executor/risk.py:248-309 | What passes under a policy and a state passes under any policy at least as permissive and any state no worse. |
| `PolicyPersistence.PolicyRoundTrip` | src/ytm_executor/risk.py:85-136 | A valid policy can be written and read back; flags survive, app-owned limits are dropped, both limits come back as printed. |
| `PolicyPersistence.PersistenceKeepsDecisions` | src/ytm_executor/risk.py:218-229 | With printable limits, every decision for every command, mode, state and day survives the file. |
| `PolicyPersistence.ShortLimitsKeepDecisions` | src/ytm_executor/risk.py:218-229 | All limits of at most 28 digits are printable: every decision survives. |
| `PolicyPersistence.PersistenceExactly` | src/ytm_executor/risk.py:218-229 | For a live policy every decision survives iff both limits are printable; if one is not, a decision changes in a risk state that a file can hold. |
| `PolicyPersistence.LongLimitChangesDecision` | src/ytm_executor/risk.py:218-229 | A concrete live policy with a daily limit of 29 digits lets a command pass that it blocks once it has been written and read. |
| `Risk.LiveIsExplicit` | src/ytm_executor/risk.py:65-124 | A live policy comes from a file that says in so many words that the kill switch is off and real commands are allowed; nothing is live by default. |
| `Risk.PolicySaysFile` | src/ytm_executor/risk.py:85-124 | Every flag of a policy that is read is what its file says, or true if it says nothing, and both limits are the positive numbers it gives, or none. |
| `Risk.FirstIsFirst` | src/ytm_executor/risk.py:400-406 | A field is taken from the first of its names that is given, from the command before its payload, and is null only if none is. |
| `Preflight.ValidationExactly` | src/ytm_executor/preflight.py:216-255 | Preflight gets past the validation check iff the newest record for the provider, first among equals, passed, is account-readable and is between -300 s and 24 h old. |
| `Preflight.NewerFailureOverrides` | src/ytm_executor/preflight.py:229-234 | A failed record newer than every pass blocks. |
| `Preflight.UnreadableTimeLast` | src/ytm_executor/preflight.py:391-398 | A record without a readable time decides only when none is later than the earliest time. |
| `Preflight.FirstGateExactly` | src/ytm_executor/preflight.py:60-127 | The first gate leads to an order iff address, credential, validation, risk, request, adapter and enablement conditions all hold. |
| `Preflight.FirstGateByFields` | src/ytm_executor/preflight.py:60-127 | In terms of what the command says: an order results iff it has no secret-like key at any depth, says mode real, account source provider and a provider whose credential is here with a recent passed validation, names the order adapter, orders are enabled, and request and risk gate pass. |
| `Preflight.AddressExactly` | src/ytm_executor/preflight.py:64-87 | What is admitted to the risk gate, in the same terms. |
| `Preflight.FinalGateExactly` | src/ytm_executor/preflight.py:128-164 | The second gate passes iff the reloaded policy is readable and passes the command and the adapter can be built. |
| `Preflight.AdapterReadyExactly` | src/ytm_executor/preflight.py:346-379 | The order adapter can be built iff the provider is okx and the secret holds three texts that are not blank. |
| `OrderRequests.Build` | src/ytm_executor/adapters.py:70-121 | A request that is built is well formed, is for the command's provider and mode, and carries the deterministic client order id; its texts are those of `OrderRequests.RequestTexts`, its amounts those of `OrderRequests.RequestAmounts`. |
| `OrderRequests.RequestTexts` | src/ytm_executor/adapters.py:70-121 | In a request that is built: side and position effect are the lower-cased, the symbol the upper-cased stripped text given first under their own names; the order type the normalized one; market, margin mode and time in force are the text given under their own names, absent iff none is. |
| `OrderRequests.RequestAmounts` | src/ytm_executor/adapters.py:70-121 | In a request that is built, an amount given under none of its names is absent, one given under several is what the first of them says, from the command before its payload, and is a positive number or an explicit nothing; likewise the targets, in order. |
| `OrderRequests.CollectTargets` | src/ytm_executor/adapters.py:188-200 | The loop collects the amounts of the items, one target for each, in order; it fails iff some item is no positive amount. |
| `OrderRequests.TargetsInOrder` | src/ytm_executor/adapters.py:188-200 | Targets are the amounts of the items, one each and in order, exactly when every item is an amount. |
| `ExecutionStore.PutThenFind` | src/ytm_executor/execution_store.py:28-67 | After a record is written every other identity finds what it found before and the new one finds the new record, unless the new identity reads like a secret: then nothing can be read. |
| `ExecutionStore.TokenBricksTheStore` | src/ytm_executor/execution_store.py:60-67 | Storing a result for the identity token makes every later lookup fail. |
| `ExecutionStore.FoundExactly` | src/ytm_executor/execution_store.py:28-46 | A lookup finds a decision iff the file is a clean object whose entry for the identity is a complete record of that status and payload, fails iff the file is damaged, and otherwise finds nothing. |
| `ExecutionStore.LocalExecutionStore.Put` | src/ytm_executor/execution_store.py:48-58 | Writing replaces one record, or fails and leaves the file alone. |
| `Guards.HarmlessIsSafe` | src/ytm_executor/guards.py:29-50 | A key that starts like no forbidden word is never refused. |
| `Guards.SafeKeyExactly` | src/ytm_executor/guards.py:7-50 | A key is refused iff its letters and digits, in lower case and without anything between them, are one of the twelve words. |
| `Guards.CleanExactly` | src/ytm_executor/guards.py:29-46 | The guard lets a value through iff no object in it, at any depth, has a refused key. |
| `Guards.BuildIsClean` | src/ytm_executor/guards.py:29-50 | An object of harmless keys and clean values passes the guard. |
| `CloseSources.CloseSourcesByOrderRef` | src/ytm_executor/reconciliation.py:414-424 | The index maps exactly the values that some labelled item mentions, each to the label of the last such item. |
| `CloseSources.FillCloseSource` | src/ytm_executor/reconciliation.py:427-435 | Looking a fill's references up in the index agrees with scanning the items for each of them. |
| `CloseSources.LastLabelIsLast` | src/ytm_executor/reconciliation.py:414-424 | What the scan finds is the label of an item that mentions the value and has no later such item; it finds nothing iff there is none. |
| `CloseSources.MentionsExactly` | src/ytm_executor/reconciliation.py:420-423 | An item mentions a value iff the value is not empty and is the text of ordId, algoId, clOrdId or algoClOrdId. |
| `CloseSources.FillLabelExactly` | src/ytm_executor/reconciliation.py:427-435 | A fill without a label of its own has that of the first of ordId, clOrdId, algoId and algoClOrdId that some item labels, and none if no item does. |
| `CloseSources.InferExactly` | src/ytm_executor/reconciliation.py:438-458 | The label of an item, from its fields: the role whose word the first of four fields with any such word spells; otherwise the one its order type spells; otherwise by hand, iff it is reduce-only and its client order id is not of this program. |
| `CloseSources.TokenPicks` | src/ytm_executor/reconciliation.py:461-463 | A token is the letters, digits and separators of its text, in order, lower-cased, with one kind of separator. |
| `CloseSources.SanitizeFills` | src/ytm_executor/reconciliation.py:325-367 | The emitted fills are the mapped inputs, labelled by the scan of orders, history and algo orders, sorted. |
| `CloseSources.FillRowExactly` | src/ytm_executor/reconciliation.py:331-357 | Every cell of a row repeats the field of the fill that belongs to it, the label and the plain symbol, and no cell is empty. |
| `CloseSources.ChosenExactly` | src/ytm_executor/reconciliation.py:343-353 | Fill id, fill time and profit repeat the first of their fields that says anything. |
| `CloseSources.RowOrderExactly` | src/ytm_executor/reconciliation.py:359-365 | Rows are ordered by fill time, then order id, then fill id, each compared as a text. |
| `CloseSources.SortedIsStable` | src/ytm_executor/reconciliation.py:359-365 | Sorting puts rows in ascending key order, keeps exactly the rows, and rows with equal keys in their order. |
| `CloseSources.PlainSymbolRoundTrip` | src/ytm_executor/reconciliation.py:466-472 | The plain symbol undoes the instrument name of a USDT pair. |
| `BinanceOrders.OrdersMeetFilters` | src/ytm_executor/binance_futures.py:76-129 | Every order that gets through meets every filter in exact decimals: a positive quantity within the limits of its type, the greatest step multiple if the step is positive, prices on the conservative tick within limits, minimum notional, allowed type; and symbol, client order id, side, type, time in force and the reduce-only flag are what is asked for. |
| `BinanceOrders.FiguresExactly` | src/ytm_executor/binance_futures.py:212-236 | Step and limits are the general ones, except for market orders whose own figure is given and not zero. |
| `BinanceOrders.NormalizingTwice` | src/ytm_executor/binance_futures.py:212-253 | Normalizing a normalized request changes nothing. |
| `BinanceOrders.NeverAboveRequestExactly` | src/ytm_executor/binance_futures.py:221-228 | The normalized quantity is not above the request iff the step that applies is positive or the request is a multiple of it: a negative market step rounds up. |
| `BinanceOrders.NegativeStepRoundsUp` | src/ytm_executor/binance_futures.py:329-330 | Rounding down to a negative step is rounding up to its magnitude. |
| `BinanceOrders.BackwardStepGetsThrough` | src/ytm_executor/binance_futures.py:221-235 | Such rules are not refused: a concrete order for 1.5 gets through, for 2. |

## Left out

- HTTP transport, SDK wrappers, enrollment, heartbeat, argument parsing and printing: plumbing; the
  exchange is whatever its answers are.
- The encrypted secret store and the credential validation calls: what they yield is an input of
  preflight; the resolver of `Preflight.AdapterReady` may return, refuse or crash.
- The other adapters (disabled, OKX precheck, Binance order test) inside a run: they place nothing,
  and their result is an arbitrary answer (`Lifecycle.OnCallOther`). The Binance normalization is
  modelled on its own; its conversion to floating point, and orders without symbol rules, are not.
- OkxBracket.NotionalBounds: in exact arithmetic; `OkxContext.NotionalInContext` proves the bounds for
  sizes as the 28-digit context computes them, for amounts within stated numbers of digits.
- OkxBracket.SizeIsGreatestLot: in exact arithmetic; `OkxContext.QuantityInContext` and
  `OkxContext.NotionalInContext` say when the context computes the same size.
- OkxBracket.LimitBuySpend: in exact arithmetic; `OkxContext.NotionalInContext` and
  `OkxContext.LimitPriceInContext` say when the context computes the same size and price.
- OkxBracket.MarketBuySpend: in exact arithmetic; `OkxContext.MarketBuySpendInContext` is the same bound on
  what the context computes, for amounts within stated numbers of digits.
- RiskHistory.RiskStateFile.Update: the file holds the figures as exact numbers; the text they are
  written as is the subject of `DecimalText.ReadsOwnText`.
- Texts are ASCII: Unicode white space, case folding and digits, and underscores in numbers, are not
  modelled. The texts of containers are simplified, and the sentences that explain a
  rejection are reduced to a word for each kind of reason; result codes are kept.
- Time: the clock, the UTC day and the parsed time stamps of validation records are inputs.
- Concurrent runs of two executors on one host, files torn in the middle of a write, and edits of the
  execution store from outside.
- YTM's leasing policy: leases are arbitrary, including repeats and different commands under one
  identity.
- Executor.Executor.ProcessLeaseResponse: the class processes a lease without interruption; crashes,
  edits and snapshots in between are runs of the state machine.
- The other reconciliation lists (orders, positions, balances), the account-level snapshot and the
  upload: they map fields and sort as the fills do.
- The parameter dictionaries that `okx_swap_order_params` and the Binance counterpart fill in place
  are records built in one expression; nothing shares them while they are filled.
