# Execution models of the Koval Backtrader adapter, verified

Two money-carrying state machines of the adapter, modelled in Dafny 4.11 and
proved correct for every input.

**The costed bracket broker** (`ohlcv_realistic_v2`, with the pricing of
`ohlcv_fixed_v1` beside it). One bar settles funding, may liquidate, offers the
open to signal closes, walks the pending queue once under the OCO guard with
one volume budget, and hands its notifications to the strategy adapter, which
cancels, replaces and submits orders. The state is a `Desk`: the table of
orders, the queue with its `None` sentinel, OCO groups, notifications, the
adapter's order references and the books. `DeskTypes`, `DeskExecution`,
`DeskBar` and `DeskAdapter` say what each operation does; `DeskStructure` to
`DeskRun` prove what every operation, bar and run keeps; `CostedBroker` and
`StrategyAdapter` are the same broker and adapter as classes that update their
fields in place, each method proved equal to the function it implements.
`TradeBook`, `Ledger`, `ExecutionBroker` and `ExecutionAudit` hold the money:
cash, position, ledger, fills, and the two identities the audit checks.
`DeskPrices`, `DeskSpot`, `DeskBudget` and `DeskCausality` carry prices, free
cash, risk budgets and causality over whole bars and runs; `DeskPlans` says
which order a decision becomes, `DeskSizing` how much of it may trade,
`DeskCosts` what that costs, `DeskTerms` where the bracket rests, `DeskReaction`
which leg a bar takes, and `DeskFills` what a bar and a run book in all.
`FixedProfile` is the fixed profile's broker. `Bookings` is what the adapter books from
notifications; `DeskAccount` folds those bookings over the notifications of a
desk, `DeskSilence` says which operations report nothing that books, and
`DeskShown` proves that over every run the position the strategy is shown is
the broker's.

**The native Spot lane.** An exact matcher under one candle-wide allowance
(`SpotMatching`), a causal open, low, high, close walk over a live order book
(`SpotWalk`), a write-ahead hash-chained journal with recovery (`SpotJournal`),
the engine reducer under arbitrary recipes (`SpotEngine`), and the clock that
feeds it (`SpotRunner`). `SpotLane` says, as a function of the journaled run,
what every call of the session does; `SpotSession` is the session as a class
that persists, fails and recovers in place, each method proved to have made
that move or to have broken off inside it; `SpotFills` proves which orders each
move may fill and which it must serve; `SpotTrace` proves what the journal then
shows: which prices were observed, in which committed state each step was
chosen, that every report is fair at a price of the walk, that a waiting order
is served where the walk passes it, and that nothing buys after a breach.

Prices, quantities and money are `real`; timestamps are integers. The lot step
is one per run. Whatever comes from outside is a parameter: bars, funding
records, a mark price that liquidates, the strategy's decisions, the journal
sink's verdict, the recipe of each reducer step, and the resolved slippage and
fee rates.

The invariants behind "never naked" are in `DeskSafety` and `DeskHearing`.
Three facts the code relies on without checking them are proved there: a partly
filled entry has always left less than one lot of the bar's budget, so no exit
follows it on its bar; a signal close is still in the queue whenever it is
removed from it; and a leg that was in hand when its sibling completed escapes
the OCO guard and is canceled only by the adapter, before the strategy acts.

Some properties do not hold unconditionally; their exact conditions are proved.
Booking an entry after an exit of the same trade would break the audit's trade
identity exactly when it moves the average price under a booked exit
(`TradeBook.ReentryBreaksTheAudit`). The absolute cost of the fixed profile is
the signed one exactly when the reference is at or inside the order's cap
(`ExecutionPricing.AbsoluteCostIsSigned`). What the adapter books of an exit
depends on the schedule of its notifications, because a Completed snapshot
books nothing: exits are booked whole exactly when no Completed snapshot brings
more than was heard of its order before (`Bookings.BookedWhole`, with a
concrete pair in `Bookings.CompletionBooksNothing`). In this broker an exit is
reported Completed only once the account is flat, when the position is closed
as a whole, so the account the strategy is shown stays the broker's in every
run (`DeskShown.ExitsCompleteFlat`, `DeskShown.AccountShowsTheBooks`). An
account with a ledger of its own, which it has only beside the stock broker,
books a partial close and then the whole trade on top of it: its ledger agrees
whatever was earned exactly when no Partial snapshot brought anything
(`Bookings.OwnLedgerAgrees`, with a concrete trade in
`Bookings.PartialIsBookedTwice`); accounts over the broker's ledger book
neither.
An exit reference need not be a price of its bar: on an entry bar a stop that
the average fill has not passed is taken at its own price, which lies inside
the bar exactly when it is on the near side of the bar's far extreme
(`DeskReaction.StopInsideItsBar`, with a concrete bar in
`DeskReaction.StopAboveItsBar`).
A candle run over an empty feed never executes its commands, because the clock
does not tick (`SpotRunner.CandleClock.Run` states the condition).

## Model

| member | source | states |
|---|---|---|
| DeskRun.EveryRunNeverNaked | src/koval_backtrader/realistic_broker.py:57-86 | over every run from a fresh account (any bars, funding, liquidating marks and decisions; any costs, fees, lot step and volume proxy) an open position has exactly one live stop, on its closing side and sized to it, and at most one live target of the same size; a flat account has no live stop, target or signal close |
| DeskTerms.EveryBracketRests | src/koval_backtrader/bt_adapter.py:579-759 | over every run, after every bar an open position's stop is a stop order at the stop of the setup that opened it, replaced only by accepted updates, and its target a limit at that target, alive exactly when there is one; the rest of a partly filled entry is sized against the same stop and target; the terms are kept beside the run, from setups and decisions alone |
| DeskTerms.RenewedTightens | src/koval_backtrader/bt_adapter.py:648-700 | an update never moves the stop away from the price, never gives a target to a position without one and never takes one away |
| DeskTerms.UpdatedRests | src/koval_backtrader/bt_adapter.py:648-759 | after the strategy's update the bracket rests exactly at the renewed terms: the stop and target it names if together they are new and valid, else where it was |
| DeskTerms.UpdatedFollows | src/koval_backtrader/realistic_broker.py:379-384 | and the remainder of the entry follows them: its setup names the renewed stop and target |
| DeskFills.EveryRunBooks | src/koval_backtrader/realistic_broker.py:57-86 | over every run: each bar books a liquidation first and whole, then only fills referenced to its own prices (save the exit of an entry bar), of no more volume than the bar's share, and the funding total is minus the charges of size times the sum of mark times rate |
| DeskFills.BarBooks | src/koval_backtrader/realistic_broker.py:57-86 | the bar of it: the funding total falls by the size held before the bar's orders times the sum of mark times rate over the due records |
| DeskFills.LiquidationFill | src/koval_backtrader/realistic_broker.py:139-176 | a liquidation closes the whole position at the mark, at no adjustment cost and no commission, for its fee rate on the notional |
| DeskFills.EndBooks | src/koval_backtrader/terminal_execution.py:11-30 | the end of the data closes the whole position at the last close, in one fill |
| DeskPlans.EntryPlacedExactly | src/koval_backtrader/bt_adapter.py:420-527 | on a flat account without a waiting entry, the decided entry becomes an order of its side, kind, price and whole size, queued and remembered, if and only if it is allowed on its market, bracketed on the right sides, and covered with margin and commission by the account value; otherwise nothing changes |
| DeskPlans.WaitingEntryStays | src/koval_backtrader/bt_adapter.py:305-312 | a waiting entry is canceled and forgotten when the strategy says so, and otherwise no decision touches it |
| DeskPlans.CloseDecided | src/koval_backtrader/bt_adapter.py:317-356 | a decision to close an open long position becomes a market sell of all of it, the waiting entry dropped, if and only if it names the position, no close is under way and it was not taken before; any other decision adds no close |
| DeskPlans.EveryEntryAsPlanned | src/koval_backtrader/bt_adapter.py:503-546 | over every run each entry order keeps the side, the kind and the price of its setup, protection updates included |
| DeskRun.EveryRunBalances | src/koval_backtrader/execution_audit.py:240-280 | the books of every run are sound: entries precede exits in each trade, both audit identities hold at any mark, and equity is the ledger balance plus open profit, so the audit never raises |
| DeskRun.OneWinnerPerGroup | src/koval_backtrader/oco_patch.py:34-53 | once a member of an OCO group has completed and its bar was heard, every other member is dead and never completes in any continuation of the run |
| DeskRun.EveryRunEnds | src/koval_backtrader/terminal_execution.py:5-38 | a run ends with its position closed in full and nothing alive, or, when positions are marked, with the position and its bracket in place; the entry order is gone either way |
| DeskRun.StepSafe | src/koval_backtrader/bt_adapter.py:276-315 | one bar of broker, notifications and strategy keeps every invariant a desk rests on between bars; an order that died never changes again |
| DeskSpot.FreeCashNeverNegative | src/koval_backtrader/execution_account.py:217-222 | on a spot market, which has neither funding nor a liquidating mark, over every run from a fresh account with cost rates below one hundred percent and positive bar prices: inventory and free cash are never negative, free cash is the broker's cash, and the free margin of the account that hears the run's notifications (ledger balance less the acquisition cost of the position it booked) is exactly that cash; nothing is asked of the run's own fills |
| DeskSpot.FreeCashAtTheEnd | src/koval_backtrader/terminal_execution.py:5-38 | the same once the data has ended, the position closed at the last close or left marked |
| DeskShown.AccountShowsTheBooks | src/koval_backtrader/bt_adapter.py:766-782 | over every run from a fresh account, partial fills, gaps, liquidations and replaced brackets included: folding the notifications in order, and closing the position when a trade ends, the account shows the broker's open size, average entry price and entry commissions after every bar, and knows the cumulative figures last reported of every order |
| DeskShown.ExitsCompleteFlat | src/koval_backtrader/realistic_broker.py:464-537 | on every bar of every run an exit is reported Completed only once the account is flat, so the snapshots that book nothing are heard only of a trade that has closed |
| DeskShown.StepShows | src/koval_backtrader/bt_adapter.py:761-955 | the step of it: whatever bar follows, an account that shows the broker's position before it shows it after its notifications |
| DeskShown.EndShows | src/koval_backtrader/terminal_execution.py:5-38 | the same at the end of the data, closed out or left marked |
| DeskPrices.ExitCoversItsFee | src/koval_backtrader/execution_config.py:76-87 | a voluntary exit trades at a positive price and brings in at least its own fee, since every rate and adjustment is below one hundred percent |
| DeskPrices.KeepsPriced | src/koval_backtrader/realistic_broker.py:57-86 | no broker operation puts a price on an order that no validated setup or update named, so every live leg, limit and stop keeps a positive price |
| DeskPrices.StrategyPriced | src/koval_backtrader/bt_adapter.py:420-759 | whatever the strategy decides, only validated, positive prices enter the desk |
| DeskBudget.EveryEntryStaysWithinBudget | src/koval_backtrader/realistic_broker.py:543-612 | over every run from a fresh account, with any funding, liquidations and decisions: after each entry fill, closing the whole position at its modelled stop loses at most the order's original budget, every entry commission paid so far and the exit commission counted |
| DeskBudget.EntryMetTrades | src/koval_backtrader/realistic_broker.py:386-424 | an order the walk counts as a met entry is the one the queue executes, at that reference and with whole lots |
| DeskBudget.EntryNotMet | src/koval_backtrader/realistic_broker.py:386-424 | an entry that is not met books nothing, so the run's entry fills are all among the met ones |
| DeskBudget.OthersOnlyExit | src/koval_backtrader/realistic_broker.py:386-424 | no order of another role, tried in the walk or canceled by its group, books an entry fill |
| DeskSizing.EntryTakesMost | src/koval_backtrader/realistic_broker.py:539-642 | the sizing is maximal: the entry takes the most whole lots, up to what is left of it, whose loss at the modelled stop stays within the budget beside the position's, and fills the most of them the bar's volume leaves; it is rejected only when no positive lot fits, and refused for margin only when that most cannot be paid |
| DeskSizing.NothingAtRisk | src/koval_backtrader/realistic_broker.py:539-573 | an entry that would lose nothing at its stop, filled beyond it, is rejected |
| DeskSizing.BudgetIsPlannedLoss | src/koval_backtrader/realistic_broker.py:410-415 | an order's budget is what its whole size loses from entry price to stop |
| DeskCosts.EntryCosts | src/koval_backtrader/realistic_broker.py:178-202 | a market or stop entry costs exactly half the spread plus the slippage of the share it may take, in basis points of its reference notional; a limit at most that and never beyond its price; the fee is the maker's for a limit, else the taker's, on the price paid |
| DeskCosts.ExitCosts | src/koval_backtrader/realistic_broker.py:511-537 | an exit costs half the spread plus the slippage of the share it takes, the end of the data no share, and the taker's fee on its price |
| DeskRisk.EntryStaysWithinBudget | src/koval_backtrader/realistic_broker.py:543-612 | the step of it: one entry fill, a carried remainder at a new average and under new slippage included, on any bar with positive prices and with cost rates below one hundred percent |
| DeskCausality.OpeningIsCausal | src/koval_backtrader/realistic_broker.py:57-86 | two bars that differ only in high, low and close give the same funding, liquidation, opening gaps met by a signal close and signal closes: same fills, prices and sizes |
| DeskCausality.GapBarIsCausal | src/koval_backtrader/realistic_broker.py:722-741 | a bar that opens through the bracket books the same, fills, prices and sizes of the whole bar, whatever its high, low and close are: after the leg has taken the open nothing else trades on that bar |
| DeskCausality.MarketEntryIsCausal | src/koval_backtrader/realistic_broker.py:613-624 | on a bar a flat account opens with a live market entry, all fills up to and including the first one after the opening are the same on two bars that differ only in high, low and close |
| DeskCausality.EntryFillsWhenMet | src/koval_backtrader/realistic_broker.py:386-424 | a flat account's live entry trades on the bar that meets it: whatever else is queued, the bar books its fill first, at the price the bar met it at and of the quantity it sizes to; a bar that does not meet it, or on which it is not due, books no fill once it is open |
| DeskPass.VisitsOnce | src/koval_backtrader/oco_patch.py:119-148 | the queue walk pops only orders queued when it began, each at most once, although matching takes from, adds to and cancels inside the same queue |
| DeskPass.PassSafe | src/koval_backtrader/oco_patch.py:119-148 | the walk keeps the desk safe, leaves no sentinel, and every live order is queued exactly once when it ends |
| DeskPass.TurnSafe | src/koval_backtrader/oco_patch.py:135-145 | one popped order, whether its group is done, it is tried, requeued or dropped, keeps the desk safe |
| DeskPass.TurnNarrows | src/koval_backtrader/oco_patch.py:121-145 | each turn leaves strictly fewer orders ahead of the sentinel, and none that was not ahead of it before, so the walk ends |
| DeskSteps.TurnSteps | src/koval_backtrader/oco_patch.py:119-148 | whatever the state, a turn only shortens what is still to be walked, only adds notifications, and leaves the adapter's entry and signal references alone |
| DeskSafety.MatchProtectionSafe | src/koval_backtrader/realistic_broker.py:705-785 | protection, on any bar, with any known breach, either leaves everything but the queue order alone because nothing was selected or the budget cannot fill a lot, or exits on this bar and leaves no live entry; the desk stays safe |
| DeskSafety.LegPartlyFilled | src/koval_backtrader/realistic_broker.py:88-101 | a partly filled leg resizes both legs to what is left of the position, which stays covered |
| DeskSafety.LegFilled | src/koval_backtrader/oco_patch.py:34-53 | a completed leg leaves a flat account and cancels its queued sibling |
| DeskSafety.TakeLegFills | src/koval_backtrader/realistic_broker.py:775-785 | a leg taken out of the queue and executed keeps the desk safe and is requeued exactly when it survives |
| DeskSafety.TakeLegDry | src/koval_backtrader/realistic_broker.py:483-511 | without budget for one lot, taking a leg changes nothing but the order of the queue |
| DeskSafety.CancelRole | src/koval_backtrader/realistic_broker.py:304-309 | canceling the remembered entry or signal leaves none of that role alive and touches no other order |
| DeskSafety.ExitTakesMost | src/koval_backtrader/realistic_broker.py:469-511 | an exit takes at most what it asks, what the position holds and what the bar's budget offers, in whole lots, and never one lot less than it could |
| DeskReaction.ProtectionReacts | src/koval_backtrader/realistic_broker.py:705-763 | for any bar, with or without gaps, opening only or not: a gap through the stop exits at the open, then a gap through the target; inside the bar a touched stop exits at the stop, and the target only when the stop is not touched; nothing is done exactly when neither is reached, protection is not yet in force, or the bar has already exited; stop and target are the terms of the position, not the selection's own |
| DeskReaction.EntryBarAnswers | src/koval_backtrader/realistic_broker.py:660-691 | what an entry bar does after the fill: an average fill beyond the stop exits at the reference by the stop, beyond the target by the target, and otherwise the bar is answered without gaps, so a bar that touches both exits at the stop |
| DeskReaction.RemainderPolicy | src/koval_backtrader/realistic_broker.py:689-691 | what an entry bar leaves of the entry: nothing when it filled whole or the policy cancels remainders, else exactly its rest, alive |
| DeskReaction.BarHonoursTerms | src/koval_backtrader/realistic_broker.py:57-86 | the whole broker bar of any desk a run rests in: when the bar touches the open position's terms, with no signal close waiting and no liquidation, the position exits by the leg and at the reference the terms dictate, whatever else is queued |
| DeskReaction.SignalCloses | src/koval_backtrader/realistic_broker.py:103-137 | a signal close whose decision and latency have passed exits the long position at the open, unless the bar opens through the bracket in force |
| DeskReaction.UnripeWaits | src/koval_backtrader/realistic_broker.py:103-137 | before its decision, its latency or its bar has come, a signal close trades nothing: at most the bracket takes the gap the bar opens with |
| DeskReaction.StopInsideItsBar | src/koval_backtrader/realistic_broker.py:660-691 | on an entry bar the stop is taken at its own price even when the bar never traded there: the reference lies inside the bar if and only if the stop is on the near side of the bar's far extreme, and where it is not, the average fill is outside the bar too |
| DeskReaction.StopAboveItsBar | src/koval_backtrader/realistic_broker.py:742-746 | concretely, a long filled above its bar by its costs exits at a stop of 95 on a bar whose high is 94 |
| DeskStructure.CancelEffect | src/koval_backtrader/oco_patch.py:160-181 | canceling a queued order kills it and the queued members of its group, and changes nothing else |
| DeskStructure.CompleteEffect | src/koval_backtrader/oco_patch.py:34-53 | completing a group cancels and reports exactly its queued members |
| DeskSignal.SignalAtOpenSafe | src/koval_backtrader/realistic_broker.py:103-137 | a live signal close met at the open still belongs to the open long position, gaps through the bracket come first, and afterwards it is settled for the bar |
| DeskSignal.SettledSignalRests | src/koval_backtrader/realistic_broker.py:103-137 | met again in the walk, a settled signal close does nothing but perhaps requeue a leg, so it is never removed from a queue it already left |
| DeskSignal.SignalExit | src/koval_backtrader/realistic_broker.py:692-702 | executing a signal close resizes the bracket to what is left, or cancels both legs when the account is flat, and keeps the desk safe |
| DeskEntry.SizedWell | src/koval_backtrader/realistic_broker.py:574-612 | a sized entry is a positive number of whole lots, no more than its quantity, and a fill short of its quantity has left less than one lot of the bar's budget; that the quantity is the most its risk budget allows is DeskSizing.EntryTakesMost |
| DeskEntry.BookEntryGrows | src/koval_backtrader/realistic_broker.py:393-396 | every entry fill is one the books admit: it adds to a position, of its own side, that no exit has touched |
| DeskEntry.BracketPlaced | src/koval_backtrader/bt_adapter.py:579-646 | a fresh bracket is one OCO group of a stop and, unless disabled, its target, both sized to the position on its closing side; at which prices is DeskTerms.EveryBracketRests |
| DeskEntry.ExecuteEntrySafe | src/koval_backtrader/realistic_broker.py:660-691 | an entry that fills, is refused, or is contained at once by its own bracket leaves the desk safe |
| DeskEntry.TryEntrySafe | src/koval_backtrader/realistic_broker.py:386-424 | a popped entry that waits, is refused or fills leaves the desk safe and no signal close alive |
| DeskOpening.SignalsAtOpenSafe | src/koval_backtrader/realistic_broker.py:77-81 | offering the open to every queued signal close settles each of them for the bar |
| DeskOpening.LiquidationHasOwner | src/koval_backtrader/realistic_broker.py:160-162 | an open position always has a queued order, so a liquidation always finds its owner |
| DeskOpening.LiquidateSafe | src/koval_backtrader/realistic_broker.py:139-176 | a liquidation cancels everything, closes in full and leaves nothing alive; without one nothing changes |
| DeskOpening.PreparedQueue | src/koval_backtrader/realistic_broker.py:82-85 | sorting and opening prioritisation permute the queue; the sentinel is added once |
| DeskOpening.OpenDeskSafe | src/koval_backtrader/realistic_broker.py:64-75 | opening the bar changes budget and books only, never the position |
| DeskHearing.BrokerBarSafe | src/koval_backtrader/realistic_broker.py:57-86 | the broker's whole bar keeps the desk safe, its queue free of the sentinel, and dead orders unchanged |
| DeskHearing.DeliverOneSafe | src/koval_backtrader/bt_adapter.py:761-955 | each notification, heard in turn, keeps every invariant: a completed leg cancels the sibling that escaped its group, a dead entry is forgotten, and never a live one |
| DeskHearing.DeliverSafe | src/koval_backtrader/bt_adapter.py:907-928 | after a bar's notifications no leg outlives a flat account and no canceled entry is unheard |
| DeskRun.AcceptExitSafe | src/koval_backtrader/bt_adapter.py:317-345 | a signal close is accepted exactly when it names the open long position, none is under way and its decision was never accepted before; afterwards it would not be accepted again, and no entry survives beside it |
| DeskRun.PlaceEntrySafe | src/koval_backtrader/bt_adapter.py:420-527 | a new entry is placed only on a flat account beside no live entry |
| DeskRun.UpdateExitsSafe | src/koval_backtrader/bt_adapter.py:648-759 | replacing the bracket, whose leader's cancel takes both legs, leaves the position covered by a fresh pair |
| DeskRun.EndFlattens | src/koval_backtrader/terminal_execution.py:11-30 | at the end of the data everything is canceled and the position closed in full at the last close |
| CostedBroker.RealisticBroker.CheckOco | src/koval_backtrader/realistic_broker.py:88-93 | in place: a partly filled leg resizes the bracket, any other end completes the group |
| CostedBroker.RealisticBroker.SweepMembers | src/koval_backtrader/oco_patch.py:47-53 | in place: the backward sweep deletes, cancels and reports exactly the queued members of a group |
| CostedBroker.RealisticBroker.CancelOrder | src/koval_backtrader/oco_patch.py:160-181 | in place: only a queued order is canceled, with its group |
| CostedBroker.RealisticBroker.ResizeProtection | src/koval_backtrader/realistic_broker.py:95-101 | in place: both live legs take the size of the position |
| CostedBroker.RealisticBroker.MatchSignal | src/koval_backtrader/realistic_broker.py:103-137 | in place: a signal close at the open, which is in the queue whenever it is removed from it |
| CostedBroker.RealisticBroker.LiquidateAll | src/koval_backtrader/realistic_broker.py:139-176 | in place: cancel a snapshot of the queue, close in full at the mark, charge the fee |
| CostedBroker.RealisticBroker.PaidSoFar | src/koval_backtrader/realistic_broker.py:550-553 | sums the open trade's entry commissions over the fills kept under it |
| CostedBroker.RealisticBroker.ExecuteClose | src/koval_backtrader/realistic_broker.py:464-537 | in place: trim to the position, book, report, react |
| CostedBroker.RealisticBroker.Protection | src/koval_backtrader/realistic_broker.py:705-785 | in place: the picked leg leaves the queue, executes, and returns if it survives, as DeskReaction.ProtectionReacts and EntryBarAnswers prove of the function it implements |
| CostedBroker.RealisticBroker.EnterPosition | src/koval_backtrader/realistic_broker.py:652-659 | in place: an entry fill is booked, reported and debited from the budget |
| CostedBroker.RealisticBroker.ExecuteTheEntry | src/koval_backtrader/realistic_broker.py:539-691 | in place: size, fill, protect, contain a breach, cancel an unwanted remainder, as DeskSizing.EntryTakesMost, DeskTerms.EveryBracketRests and DeskReaction.EntryBarAnswers prove of the function it implements |
| CostedBroker.RealisticBroker.TryTheEntry | src/koval_backtrader/realistic_broker.py:393-424 | in place: exit bar, latency, whole lots, trigger |
| CostedBroker.RealisticBroker.WalkQueue | src/koval_backtrader/oco_patch.py:119-148 | in place: the loop over a queue that changes under it, up to the sentinel |
| CostedBroker.RealisticBroker.PrioritizeOpening | src/koval_backtrader/oco_patch.py:71-90 | in place: each group is sorted inside the slots it holds |
| CostedBroker.RealisticBroker.NextBar | src/koval_backtrader/realistic_broker.py:57-86 | in place: one bar of the broker; the funding cursor passes exactly the records due by the bar and never moves back |
| StrategyAdapter.BTStrategyAdapter.OnBar | src/koval_backtrader/bt_adapter.py:276-315 | in place: one bar of broker, notifications and strategy; afterwards no position is naked, the books are sound, the position the strategy is shown is the broker's, and the funding cursor has passed exactly the records due by the bar |
| StrategyAdapter.BTStrategyAdapter.NotifyOrder | src/koval_backtrader/bt_adapter.py:761-955 | in place: what each notification does to the adapter's references and the queue, and what it books in the account, entries averaged in and partial exits taken off |
| StrategyAdapter.BTStrategyAdapter.HearAll | src/koval_backtrader/bt_adapter.py:907-942 | in place: notifications in the order they were given, then the close of a trade that ended |
| StrategyAdapter.BTStrategyAdapter.UpdateTheExits | src/koval_backtrader/bt_adapter.py:648-759 | in place: both legs are replaced together, only by a changed and valid pair, and a position that trades without a target is never given one |
| StrategyAdapter.BTStrategyAdapter.AcceptPositionExit | src/koval_backtrader/bt_adapter.py:317-345 | in place: one signal close per position and one per decision, the waiting entry dropped first and the decision remembered |
| StrategyAdapter.BTStrategyAdapter.SubmitEntry | src/koval_backtrader/bt_adapter.py:420-527 | in place: a valid, affordable entry is submitted |
| StrategyAdapter.BTStrategyAdapter.Finish | src/koval_backtrader/terminal_execution.py:5-38 | in place: the end of the data; the account is flat and nothing is alive, or the position is left marked under its bracket, and the position shown is the broker's either way |
| OcoPriority.PrioritizedEffect | src/koval_backtrader/oco_patch.py:71-90 | prioritisation is a permutation that keeps every order outside active protection in its slot and every group in its own slots, and leaves each group sorted by opening stop, opening target, then the rest, ties in queue order |
| OcoPriority.SlotFound | src/koval_backtrader/oco_patch.py:71-90 | the slots of a group name every queued member of its active protection |
| TradeBook.ApplySound | src/koval_backtrader/evidence_execution.py:76-94 | every admissible fill or settlement keeps the books sound: cash agrees with the ledger, quote is conserved, trades partition, entries come first |
| TradeBook.AuditNeverRaises | src/koval_backtrader/execution_audit.py:240-280 | after any run of admissible partial entries, partial exits, funding and liquidation, marked at any price, the audit does not raise |
| TradeBook.CostIdentity | src/koval_backtrader/execution_audit.py:264-273 | equity is initial capital plus reference cashflows less adjustment costs, commissions and liquidation fees, plus funding |
| TradeBook.TradeIdentity | src/koval_backtrader/execution_audit.py:248-276 | equity is initial capital plus closed and open trade results, less the open trade's commissions, plus funding |
| TradeBook.ReentryBreaksTheAudit | src/koval_backtrader/execution_audit.py:252-263 | were an entry booked after an exit of its trade, the trade identity would still hold if and only if the moved average price leaves the booked exits' profit unchanged |
| TradeBook.EquityIsLedgerPlusOpenProfit | src/koval_backtrader/realistic_broker.py:310-318 | the broker's value is the ledger balance plus size times the distance of the mark from the average price |
| TradeBook.SignNeverFlips | src/koval_backtrader/realistic_broker.py:469-476 | a position never changes sign without passing through flat, and each fill changes its size by exactly the fill |
| TradeBook.ClosedTradeIsExact | src/koval_backtrader/execution_audit.py:177-197 | a closed trade sold exactly what it bought, so its weighted exit price and gross profit are exact |
| ExecutionAudit.BuildExecutionAudit | src/koval_backtrader/execution_audit.py:227-289 | the audit loop refuses exactly when one identity fails, never on sound books, and reports a zero error otherwise |
| ExecutionAudit.EnrichClosedTrade | src/koval_backtrader/execution_audit.py:173-197 | the closed-trade record carries the weighted prices over its entry quantity |
| ExecutionAudit.RecordIsExact | src/koval_backtrader/execution_audit.py:173-224 | for a trade of sound books the record's gross profit less its own commissions and liquidation fees is what the broker realised |
| ExecutionPricing.AbsoluteCostIsSigned | src/koval_backtrader/execution_broker.py:39-49 | the fixed profile's absolute cost equals the signed cost if and only if the reference is at or inside the order's cap |
| ExecutionPricing.FixedProfileCostsAreSigned | src/koval_backtrader/execution_broker.py:113-117 | since a limit only matches at or inside its price, every matched fill of the fixed profile records the cost the audit needs |
| ExecutionPricing.LimitMatchesInside | src/koval_backtrader/execution_broker.py:46-48 | a limit only ever matches at or inside its price |
| ExecutionPricing.MatchedWhenReached | src/koval_backtrader/execution_broker.py:46-48 | an order is matched if and only if the bar reaches it; a limit gets the better of the open and its price, a stop the worse |
| FixedProfile.FixedFillAdmissible | src/koval_backtrader/execution_broker.py:51-117 | each fill of the fixed profile, entry on a flat account or close of the whole position, is one the books admit |
| FixedProfile.FixedRunsBalance | src/koval_backtrader/execution_broker.py:51-111 | in a fixed-profile run each of whose orders, when it is attempted, enters a flat account or closes the position whole, whatever the bars are and margin refusals and refused prices included, the books stay sound and the audit is silent at any close |
| FixedProfile.FixedAuditNeverRaises | src/koval_backtrader/execution_audit.py:240-280 | so is the audit of every such run from a fresh account |
| FixedProfile.AttemptExplained | src/koval_backtrader/execution_broker.py:38-111 | an attempt fills its order whole at the reference the bar reaches it at, at half spread plus slippage against it (held by the limit of an entry limit) and its commission, or books nothing; the second exactly when the bar does not reach it, a price is not positive, or the balance or the engine refuses it |
| StopRisk.EntryStaysInBudget | src/koval_backtrader/realistic_broker.py:548-573 | a quantity within the remaining budget per unit lost keeps the whole position within the original budget |
| StopRisk.AverageDistance | src/koval_backtrader/realistic_broker.py:551-559 | averaging never widens the distance to the stop beyond its parts |
| Ledger.IncrementalAccountLedger.Record | src/koval_backtrader/execution_account.py:70-79 | each recorded entry keeps the cached totals equal to folds over all entries |
| ExecutionBroker.ExecutionCostBroker.RecordFill | src/koval_backtrader/execution_broker.py:113-166 | cash, position, ledger and fill ledger move as the books define; each fill is kept under its trade |
| ExecutionBroker.EvidenceExecution.SettleFunding | src/koval_backtrader/evidence_execution.py:36-74 | each record due by the bar is settled, in order: balance, cash and funding total each fall by the size held before the bar's orders times the sum of mark times rate; the cursor stops at the first one that is not due |
| ExecutionBroker.FundingCharged | src/koval_backtrader/evidence_execution.py:48-74 | over any batch, balance, cash and the funding total fall by size times the sum of mark times rate, and the position is untouched |
| ExecutionBroker.PositiveRatesCostLongs | src/koval_backtrader/evidence_execution.py:48-74 | a batch of positive rates at positive marks takes cash from a long and gives it to a short |
| ExecutionBroker.EachRecordOnce | src/koval_backtrader/evidence_execution.py:36-47 | over a run of bars each record the cursor passed was settled on exactly one bar, the first whose time had reached it |
| ExecutionBroker.SettledSound | src/koval_backtrader/evidence_execution.py:48-74 | funding keeps the books sound and never moves the position or its trade |
| ExecutionBroker.TotalOfTrade | src/koval_backtrader/execution_broker.py:162-166 | summing the fills kept under a trade is summing that trade over all fills |
| Bookings.BookingsAreCumulative | src/koval_backtrader/bt_adapter.py:766-782 | for any interleaving of exit notifications, repeats included, what partial closes booked and what completed snapshots left unbooked are together the broker's cumulative figures |
| Bookings.BookedIsLastPartial | src/koval_backtrader/bt_adapter.py:907-914 | what is booked before the close is, order by order, the figures of the last Partial snapshot |
| Bookings.SchedulesAgree | src/koval_backtrader/bt_adapter.py:907-928 | a schedule whose Completed snapshots only repeat what was heard is booked whole; another one of the same totals books the same if and only if its Completed snapshots only repeat too |
| Bookings.BookedWhole | src/koval_backtrader/bt_adapter.py:907-914 | exits are booked at the broker's cumulative figures if and only if no Completed snapshot brings more than the snapshot of its order heard before it |
| Bookings.CompletionBooksNothing | src/koval_backtrader/bt_adapter.py:907-928 | an exit of ten heard as a partial five and a completed ten books five, heard only as completed ten it books nothing |
| Bookings.OwnLedgerAgrees | src/koval_backtrader/execution_account.py:202-215 | an account with its own ledger agrees with the broker about a closed trade whatever was earned if and only if no Partial snapshot brought anything: then the ledgers are equal, and otherwise the same snapshots with a profit of one a unit leave the own ledger larger, because the close books the whole trade again |
| Bookings.PartialIsBookedTwice | src/koval_backtrader/execution_account.py:202-215 | half of an exit heard as a partial close that earned three at a fee of one leaves an own ledger two above the broker's |
| Bookings.EntryBookingsAgree | src/koval_backtrader/bt_adapter.py:825-842 | whatever snapshots of an entry are heard, the account ends with the broker's quantity, average price and commission |
| Bookings.ExitBookings.NotifyExit | src/koval_backtrader/bt_adapter.py:766-782 | in place: a Partial snapshot books its difference to the last one heard and shrinks the position by it, a Completed one books nothing; an account over the broker's ledger leaves the ledger alone |
| Bookings.ExitBookings.NotifyTradeClosed | src/koval_backtrader/bt_adapter.py:1087-1092 | in place: the close flattens the account and books the gross result and every fee but the entry's to an own ledger, which then shows the broker's result when no Partial snapshot brought anything |
| Bookings.EntryBookings.NotifyEntry | src/koval_backtrader/bt_adapter.py:825-842 | in place: after each snapshot the booked position is the one it describes |
| HigherTimeframe.SelectClosed | src/koval_backtrader/bt_adapter.py:249-259 | the bars shown are exactly the closed ones among the last allowed ones inside the window; a forming bar is never shown |
| SpotMatching.TickIsNearest | src/koval_backtrader/spot_matching.py:80-83 | the tick price is the nearest tick on the adverse side of the moved reference |
| SpotMatching.PriceIsAdverse | src/koval_backtrader/spot_matching.py:79-85 | a fill is never better than the adversely moved reference unless its limit is, never passes its limit, and stays on the tick grid |
| SpotMatching.FillIsLargest | src/koval_backtrader/spot_matching.py:92-112 | a fill is the largest whole number of steps that neither remaining demand nor the unused allowance forbids |
| SpotMatching.FullnessAgrees | src/koval_backtrader/spot_matching.py:135-140 | the base-quantity and quote-cap definitions of a full order agree |
| SpotMatching.FilledExactlyWhenExhausted | src/koval_backtrader/spot_matching.py:135-140 | a fill is reported filled exactly when less than one step of demand is left at its price |
| SpotMatching.FillRespectsSize | src/koval_backtrader/spot_matching.py:93-112 | no fill takes an order past its quantity or quote cap |
| SpotMatching.SilentOnlyWithoutRoom | src/koval_backtrader/spot_matching.py:110-112 | silence means not even one step fits |
| SpotMatching.FeeIsWorthItsRate | src/koval_backtrader/spot_matching.py:113-134 | whatever asset pays the fee, it is worth the fee rate on the notional |
| SpotMatching.MakerOrTaker | src/koval_backtrader/spot_matching.py:115-116 | a limit that rested past the open pays the maker's rate, any other fill the taker's |
| SpotMatching.RefusedExactly | src/koval_backtrader/spot_matching.py:86-109 | an order is refused if and only if its fill price is outside the price filter or band, or it is an untouched market order whose demand is outside the market size or notional filter; what is refused does not fill, and what fills is in band |
| SpotEngine.AdvanceHealthy | src/koval_backtrader/spot_session.py:79-97 | every reducer step, whatever a recipe decides, keeps orders equal to their logged fills, prices on the grid and fills within the allowance |
| SpotEngine.TerminationStands | src/koval_backtrader/spot_session.py:79-97 | a terminal command, or a price at or below the stop with inventory, leaves a terminal action standing |
| SpotWalk.NextPoint | src/koval_backtrader/spot_candles.py:89-111 | the next point is the first eligible limit or stop ahead of the cursor, or the end of the leg |
| SpotWalk.StepShrinksGap | src/koval_backtrader/spot_candles.py:88-112 | every step but the last crosses a tick for good, so the walk ends although orders appear and vanish |
| SpotWalk.WalkIsMonotone | src/koval_backtrader/spot_candles.py:85-112 | the points of a leg move strictly from its start to its end |
| SpotTrace.NoLimitIsJumped | src/koval_backtrader/spot_candles.py:89-111 | between two consecutive prices a leg visits in the journal lies no resting limit that was eligible in the state committed when the step was chosen |
| SpotTrace.RestingLimitIsSeen | src/koval_backtrader/spot_candles.py:85-112 | an order resting ahead of the price just visited, and eligible in every committed state a later step is chosen in, has its own limit price observed in the journal before the leg ends |
| SpotTrace.ReportsAreFair | src/koval_backtrader/spot_candles.py:28-83 | every report in the journal of a completed candle is fair: acceptance and cancellation answer what was owed, expiry an order whose bars are over; a fill or refusal names an active, live order, a buy only while no terminal action or halt stands, while the walk visits a price that has come to its limit, or, for a market order, the open or the one stop close; the fill is no better than the visited price |
| SpotTrace.FilledInsideTheCandle | src/koval_backtrader/spot_candles.py:43-83 | hence a limit buy that filled had its limit at or above the candle's low and paid between the low and its limit, a limit sell mirrored at the high, and a market order traded at the open or worse, or as the stop close |
| SpotTrace.RestingLimitIsServed | src/koval_backtrader/spot_candles.py:85-112 | conversely an order resting ahead of the price just visited, that waits in every committed state until it fills (for a buy: while no terminal action or halt stands), fills on that leg, unless at its own limit the matcher had less than a step to give it or refused it |
| SpotFills.VisitHonours | src/koval_backtrader/spot_candles.py:46-83 | each visit serves every order that waits there in every committed state until it fills: limits the price has come to, market orders at the open, the stop's close while its reference is unspent |
| SpotFills.VisitTrades | src/koval_backtrader/spot_candles.py:43-83 | the step of the other direction: a visit reports nothing but fairly at its own price |
| SpotFills.OpenLapses | src/koval_backtrader/spot_candles.py:186-194 | every order that is active and overdue when the candle comes in is reported expired before the candle's first price |
| SpotFills.RunOutServes | src/koval_backtrader/spot_session.py:145-160 | at the end of the data, when positions are flattened and nothing awaits reconciliation, every close still open is served at the last mark |
| SpotTrace.BarTravels | src/koval_backtrader/spot_candles.py:114-200 | a candle processed to its end shows, in its own journal, the open and then three legs, each step of which was chosen in the state committed at that point and followed by an observation of its price |
| SpotTrace.JourneyTraverses | src/koval_backtrader/spot_candles.py:194-198 | the prices a candle observed, repeats dropped, are the open, a fall to the low, a rise to the high and a move to the close, point by point |
| SpotTrace.NoBuyAfterBreach | src/koval_backtrader/spot_candles.py:28-38 | from the record that observes a price at or below the stop with inventory on, over the rest of that candle and every later one, no buy fills, and from the next record on a terminal action stands |
| SpotTrace.NoBuyOnceTerminal | src/koval_backtrader/spot_candles.py:66-69 | once a terminal action stands in a committed state it stands in every later one, and no buy fills between |
| SpotTrace.FillsAccountForEverything | src/koval_backtrader/spot_session.py:79-138 | between any two points of the journal inventory and quote cash moved by exactly the fills and fees logged between them |
| SpotJournal.AtIsReplay | src/koval_backtrader/spot_session.py:214-244 | the committed state at any point of the journal is the replay of the records up to it |
| SpotJournal.RecoveryIsUninterrupted | src/koval_backtrader/spot_session.py:214-244 | from the checkpoint after any number of records, replaying the following ones gives exactly the uninterrupted state |
| SpotJournal.CheckpointPlusSuffix | src/koval_backtrader/spot_session.py:214-244 | a checkpoint and a suffix recover the uninterrupted state exactly when that state is settled |
| SpotJournal.OnlyTheGenuineRun | src/koval_backtrader/spot_session.py:224-235 | a suffix of records with genuine digests is accepted if and only if it is the run that follows the checkpoint; missing, repeated, reordered and altered records are refused |
| SpotJournal.HeadDigestPinsHistory | src/koval_backtrader/spot_session.py:61-76 | the last digest determines the whole history that led to it |
| SpotJournal.ReplaySuffix | src/koval_backtrader/spot_session.py:224-235 | the recovery loop stops at the first record that does not follow |
| SpotSession.HistoricalSpotSession.Persist | src/koval_backtrader/spot_session.py:58-77 | the committed state is always that of the last accepted record; a refusing sink leaves it untouched and fails the session |
| SpotSession.HistoricalSpotSession.Observe | src/koval_backtrader/spot_session.py:79-97 | exactly two records are written, the observation with the state unchanged and the reduced state with nothing pending; if the sink refuses or the engine raises in between, the session has failed and only the first, or none, is there |
| SpotSession.HistoricalSpotSession.Drain | src/koval_backtrader/spot_session.py:102-120 | within 512 rounds nothing is left to acknowledge or reconcile, or the session gives up; nothing fills |
| SpotSession.HistoricalSpotSession.Match | src/koval_backtrader/spot_session.py:123-138 | the matcher's event and no other is allocated, reported and drained, in that order, and nothing happens when the matcher is silent; at most one fill, of the order offered |
| SpotSession.HistoricalSpotSession.SellPass | src/koval_backtrader/spot_candles.py:46-64 | every order is offered in priority and sells fill in it; no buy fills; off the open at most one market order sells, it is a close, and none does once the bar's stop reference is consumed |
| SpotSession.OneAttempt | src/koval_backtrader/spot_candles.py:52-64 | filled or not, a market order offered off the open consumes the bar's stop reference, and from then on no market order may be offered off the open of that bar |
| SpotSession.HistoricalSpotSession.BuyPass | src/koval_backtrader/spot_candles.py:66-83 | buys are offered and fill in priority until a terminal action or a breach left by a fill stops the pass; none is offered when one stood before it; at which prices each may fill, and that none is passed over, is SpotFills.VisitTrades and VisitHonours |
| SpotSession.HistoricalSpotSession.Point | src/koval_backtrader/spot_candles.py:28-83 | contain, sell, observe the price, buy, in this order; at a breached stop no buy fills and a terminal action stands; at most one market order sells off the open; the mutual recursion goes one deep |
| SpotSession.HistoricalSpotSession.Leg | src/koval_backtrader/spot_candles.py:85-112 | the leg ends, and what it did is visiting its points in turn, each the first crossing in the state the visit before it left; at most one market order sells on it |
| SpotSession.HistoricalSpotSession.OnCandle | src/koval_backtrader/spot_candles.py:114-200 | refused and repeated candles change nothing; a taken one journals expiry, the open, then a causal walk down to the low, up to the high and to the close, each step of which serves what waits at its price, reports only fairly, fills within its allowance over all orders and sides, sells at most one market order off the open, keeps a terminal action that stood, and then fills no buy |
| SpotSession.TakenExactly | src/koval_backtrader/spot_candles.py:114-153 | a candle is taken if and only if it is well formed, aligned, the next one after the last, inside the evaluation and covered by the evidence, by a session that neither failed, ended nor stands inside a bar; it repeats if and only if it is the last one again |
| SpotSession.HistoricalSpotSession.Finish | src/koval_backtrader/spot_session.py:145-160 | the end of data observes the bound command, offers the last mark to the closes it left, fills no buy, opens no bar and no new allowance, leaves a terminal action, and happens once |
| SpotSession.HistoricalSpotSession.RestoreState | src/koval_backtrader/spot_session.py:214-244 | a fresh session adopts exactly what recovery yields, and refuses everything else unchanged |
| SpotLane.WorkingInPriority | src/koval_backtrader/spot_candles.py:38-45 | the matching order visits every order once: closes, sells, buys, then acceptance, then key |
| SpotLane.ClosesThenSellsThenBuys | src/koval_backtrader/spot_candles.py:38-45 | what the order means: no close after an order that is none, no sell after a buy, earlier acceptance first, ties by key |
| SpotRunner.CandleClock.Validate | src/koval_backtrader/spot_runner.py:102-119 | every candle and mark is checked against the ones before it, before the first write |
| SpotRunner.CandleClock.Run | src/koval_backtrader/spot_runner.py:102-142 | nothing is written unless every step is admitted; then no candle is refused, each new one becomes one bar, every step is consumed when there is a candle to make the clock tick, and once a command has been fed a terminal action stands |
| SpotRunner.CandleClock.FeedCommand | src/koval_backtrader/spot_runner.py:129-135 | a command step is handed to the session, whose terminal action then stands |

## Left out

- Binary floating point: the ulp and 1e-9 repairs, the 1e-12 thresholds and the 256-digit Decimal context are replaced by exact reals.
- Price normalisation of entries and protection to an instrument's ticks in the realistic broker: prices are taken as already normalised; quantities are floored to the step as the code does.
- Backtrader's submitted queue, order expiry and margin-call internals: orders go straight to the pending queue, as the adapter submits them with submission checks off.
- Liquidation arithmetic (mark-price margin tiers): a mark that liquidates is an input; what liquidation does to orders, position and fees is modelled.
- Evidence records, decision traces, event payloads, order and fill identifiers, metadata and digests of files.
- Configuration and evidence parsing, and the errors raised when evidence does not cover a bar: values are taken as validated and covering.
- The adapter's own trade counter is identified with the broker's trade number, and its pending setup with the setup its entry order carries.
- Runs that raise on an invalid setup or an invalid protection update end there in the code; the model leaves the desk unchanged on such a decision.
- Runtime windows (evaluation start, paper history), the drawdown stop, and the cooldown on the bar a signal close completes: a decision may simply be absent.
- FixedProfile.FixedRunsBalance: assumes of the run that each attempted order enters a flat account or closes the whole position, which the adapter's single entry and the engine's one-cancels-other see to; the queue and adapter of the fixed profile are not modelled.
- FixedProfile.FixedAuditNeverRaises: makes the same assumption.
- DeskSpot.FreeCashNeverNegative: takes every cost and slippage fraction to be below one, which configuration validation guarantees for fixed values and is assumed of a calibrated slippage curve.
- DeskBudget.EveryEntryStaysWithinBudget: makes the same assumption.
- StrategyAdapter.BTStrategyAdapter.AcceptPositionExit: a position exit request of an unsupported shape raises in the code; the model leaves the desk unchanged on it.
- The account state behind `execution_account.py` is a library class that is not part of this model: a partial close is taken to reduce the position and, with an own ledger, to record its profit, and a close to flatten the position and record the trade's.
- Orders are entries of a table rather than shared objects, so aliasing of one order object by broker, adapter and notifications is not captured; a notification carries a snapshot of the status.
- The order references the adapter keeps are fields of the broker class, beside the orders they refer to.
- The content hash is symbolic: equal digests mean equal contents. Export and restore of engine state are the identity on accepted documents.
- The engine's recipes (grid, dollar-cost averaging), its report and its history window: the reducer is an arbitrary function each of whose steps is one a recipe could take: cancel, submit on the tick grid, move the stop, change phase, halt or quarantine. That a limit order names a price and that a close sells is taken from the intent's own validation.
- Client order identifiers of the Spot lane are positions in the order table; the last tie-break compares positions.
- Explicit observation replay of the Spot lane and the report of a finished run.
- Maximum drawdown, time under water, excursions and other diagnostics: easy beside the rest.
