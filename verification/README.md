# Verified model of the two-venue arbitrage engine

The bot rests a maker order on one exchange and hedges each fill of it at once on the other. This
project models the four places where that is hard, and proves what they keep, over every input and
every sequence of events.

**The engines.** `Types`, `Pricing`, `HlMaker`, `LtMaker` hold the two strategy state machines,
`MakerHedge` the forward engine (maker on Hyperliquid, hedge on Lighter) and `LighterTaker` the
reverse one. Each is a class whose methods change fields in place, proved against a function of its
state (`HlEngine`, `LtEngine`). Exchanges and clocks are an environment that answers each request
arbitrarily (`Answers`). A ledger (`HlLedger`) watches the requests and the fills and knows nothing
of the engine's own bookkeeping: it holds the true positions, the side, size and filled amount of
every acknowledged order, and the send times. What each event sends, and when, is stated as an
equivalence in the quotes, the configuration and what the engine remembers (`HlDecisions`,
`LtDecisions`, over the spread laws of `SpreadLaws`). The other theorems relate engine and ledger over
unbounded event sequences: order lifecycle (`HlLifecycle`), conservation of exposure and neutrality
(`HlNeutrality`), position bound, rate limits and fill attribution (`HlSafety`), the speculative
hedge (`HlSpeculation`), taker prices (`TakerPrices`), gate hysteresis (`HlGate`), how each engine
gets stuck and what frees it, each an exact condition, where placements come from, and a run that
goes naked after a late fill (`HlProgress`, `LtProgress`), reachable instances of the surprising
states (`HlWitness`, `LtProgress`), the reverse engine (`LtNeutrality`), the equivalence of the two
strategies (`Bisimulation`) and the maker prices, each the best that keeps the spread (`PriceLaws`).
Prices and sizes are reals.

**The signing pipeline.** `Decimal` prints amounts, `MsgPack` packs and decodes, `JsonText` prints
and reads, `Actions` builds the order and cancel actions, `ActionLaws` proves that the hashed bytes
and the posted text carry one tree, `ActionFields` that its fields are those of the request, `Preimage`
that the bytes determine the request. `Words`,
`Keccak`, `KeccakTables` and `Sponge` prove the hash against FIPS 202 stated bit by bit (the step
mappings of section 3.2 and the constants derived as in sections 3.2.2 and 3.2.5, the sponge of
section 4 and the padding of section 5.1, with Keccak's original padding that has no domain suffix).
`Signing` joins the two.

**The reply scanner.** `JsonValue` is the grammar of RFC 8259 (sections 4 to 7) for compact text,
`JsonScan` the scanner's loops, `JsonScanLaws` what they find.

**Two concurrent protocols.** `Nonce` and `PostTransport` are state machines over atomic steps, for
any number of threads in any interleaving; `PostProgress` proves that one lock cycle is the
transport's only obstacle to finishing and that no reply is lost, and `PostFeed` connects it to
message texts.

Where the code and its comments disagree, the model follows the code:

- src/strategy.cpp:145 says that the next snapshot places a new order after a cancel. It does not:
  `CancelledPendingConfirm` is left only by a fill or by a reset, never by a snapshot or a rejection
  (`HlGate.PendingExactlyWhileHeld`). The reset follows an acknowledged cancel, a deferred one included;
  without one only a fill that closes the order is left (`HlProgress.StuckUntilClosingFill`).
- src/engine.cpp:109-111 says that every partial fill is hedged. A reconciliation that closes the
  order forgets its id, and the next partial fill of it is dropped
  (`HlSafety.ReconciledOrderDropsItsNextFill`); unless the order is overfilled, less than 0.001 of it
  is left by then (`HlSpeculation.ClosedRemainderIsSmall`). In the reverse engine the first fill closes
  the order whatever its size (`LtNeutrality.SecondPartIsDropped`).

Where the code does not support a property, the exact condition is proved: which event breaks the
lifecycle invariant, what each event adds to the exposure, when an engine gets stuck and what frees
it, which orders go out below the threshold, by how much a speculative hedge exceeds what rests, on
which calls the two strategies part, when a cancel's text and hash disagree, when the nonce cache
returns to zero, and when the transport deadlocks.

## Model

| member | source | states |
|---|---|---|
| MakerHedge.MakerHedgeEngine.constructor | include/arb/engine.hpp:79-106 | a new engine is idle, flat and has nothing deferred |
| MakerHedge.MakerHedgeEngine.OnMarketData | src/engine.cpp:56-101 | a tick runs the deferred action first and asks the strategy only if that logged nothing; the new state and requests are those of the engine function |
| MakerHedge.MakerHedgeEngine.OnHlFill | src/engine.cpp:103-448 | a fill of a forgotten order changes nothing; one of the speculatively hedged order is reconciled in three cases; any other is hedged, and taken back if the hedge is not confirmed |
| MakerHedge.MakerHedgeEngine.Reconcile | src/engine.cpp:115-209 | near match, underhedge and overshoot against a speculative hedge, with the correction each one sends |
| MakerHedge.MakerHedgeEngine.HedgeFill | src/engine.cpp:211-447 | the hedge of a fill, booked when confirmed and taken back otherwise |
| MakerHedge.MakerHedgeEngine.OnTradeEvent | src/engine.cpp:723-842 | a trade through the resting order sends one speculative hedge of its placed size, remembered only when confirmed |
| MakerHedge.MakerHedgeEngine.PriceCrosses | src/engine.cpp:747-775 | a trade counts when it went far enough through the price and was large enough |
| MakerHedge.MakerHedgeEngine.LimitBlocks | src/engine.cpp:486-501 | an order is blocked exactly when the position is at its limit and the order would increase it |
| MakerHedge.MakerHedgeEngine.Place | src/engine.cpp:485-559 | limit, rate limit, send, and what an acknowledgement does |
| MakerHedge.MakerHedgeEngine.Acknowledge | src/engine.cpp:539-553 | an acknowledged order replaces all memory of older ones |
| MakerHedge.MakerHedgeEngine.Cancel | src/engine.cpp:560-642 | rate limit, no active order, refused and acknowledged cancel, the last with the unwind of a speculative hedge |
| MakerHedge.MakerHedgeEngine.ExecuteDeferred | src/engine.cpp:693-705 | a deferred action waits for its retry time and leaves the slot before it is executed |
| MakerHedge.MakerHedgeEngine.ExecuteAction | src/engine.cpp:479-691 | dispatch of every action, the hedge with its rejection path included |
| MakerHedge.MakerHedgeEngine.OnLighterHedgeReject | src/engine.cpp:450-453 | a rejection runs the strategy's action |
| MakerHedge.MakerHedgeEngine.OnLighterHedgeFill | src/engine.cpp:455-457 | a hedge fill only completes the strategy's open position |
| MakerHedge.MakerHedgeEngine.Unwind | src/engine.cpp:675-682 | the HL position of the strategy is reduced by its size |
| MakerHedge.MakerHedgeEngine.ClearSpeculation | src/engine.cpp:550-552 | the three fields of a speculative hedge are cleared together |
| SpreadLaws.ForwardSpread | src/engine.cpp:28-40 | a snapshot carries both books unchanged; its spread is the distance of the two mids in basis points of their average, plus or minus 200% when one book has an empty side, zero when both have |
| HlDecisions.BlockedExactlyAtLimit | src/engine.cpp:50-54 | an order is blocked exactly when the HL book is whole, the position at its mid reaches the USD limit, and the order would increase it |
| HlDecisions.ThresholdInForce | src/strategy.cpp:214-228 | the threshold is the configured closing one when that is positive, below the opening one and the trade is against the position, and the opening one otherwise |
| HlDecisions.IdleEnginePlaces | src/engine.cpp:56-101 | with nothing due an idle engine places exactly when both books are whole and fresh, the spread reaches the threshold, the rearm time has passed, the limit allows the side and the rate limiter lets it pass; the order has the side of the spread, the worth of the pair size and the best price that keeps the spread; stopped by the rate limiter alone it is parked until the interval is over |
| HlDecisions.PlacementIsRemembered | src/engine.cpp:502-556 | a placement stamps the send time; acknowledged it replaces all memory of older orders, with the wall clock as its epoch; refused it changes nothing else |
| HlDecisions.PendingOrderIsCancelled | src/strategy.cpp:131-153 | with nothing due a pending order is cancelled exactly when books that are whole and fresh no longer hold its direction and its entry less the band: the active order is cancelled, an acknowledged cancel is followed by the unwind of a speculative hedge 15 basis points through the mid, and a cancel stopped by the rate limiter is parked until its interval is over |
| HlDecisions.CancelIsRemembered | src/engine.cpp:560-642 | an acknowledged cancel leaves nothing active or hedged and an idle strategy, and keeps the order id for fills under way; a refused one keeps everything |
| HlDecisions.CancelledEngineWaits | src/engine.cpp:56-101 | while a cancel is awaited a tick with nothing due sends nothing |
| HlDecisions.RunRetriesInTime | src/engine.cpp:707-721 | after every run a deferred placement or cancel waits for exactly the last one of its kind plus the interval |
| HlDecisions.DuePlacementGoesOut | src/engine.cpp:693-705 | a due placement goes out as it was parked unless the position limit forgets it or the rate limiter parks it for the same time again, and then the tick goes on as if nothing had been due |
| HlDecisions.DueCancelGoesOut | src/engine.cpp:693-705 | a due cancel goes out for the order that is active by then unless the rate limiter parks it for the same time again |
| HlDecisions.TradeIsHedged | src/engine.cpp:723-842 | a trade is hedged exactly when an order is active and pending with no hedge outstanding, the trade is not older than its acknowledgement, went at least the configured basis points through its price, was large enough, and both books are whole and fresh; the hedge is one IOC of the order's size 15 basis points through the mid, remembered exactly when confirmed |
| HlDecisions.HedgedFillIsReconciled | src/engine.cpp:115-209 | a fill of the hedged order: nothing is sent within 0.001 of the hedge, the rest is hedged 10 basis points through the mid above, the excess is taken back 15 through it below; when the order is closed and forgotten, and how the position moves |
| HlDecisions.OtherFillIsHedged | src/engine.cpp:211-447 | any other fill of a remembered order is hedged in full 10 basis points through the mid and taken back on HL exactly when that is not confirmed; the position moves exactly when it is, and the order stays remembered |
| HlDecisions.StrangeFillIsIgnored | src/engine.cpp:103-107 | a fill of an order that is not remembered changes nothing |
| HlDecisions.ReportsAreIgnored | src/engine.cpp:450-457 | in every reachable state a hedge result reported from outside changes nothing |
| HlDecisions.HedgeActionCovers | src/engine.cpp:643-682 | the hedge action sends the intent; unconfirmed, the HL side of the open position is taken back in full |
| HlDecisions.IntentIsThrough | src/strategy.cpp:9-21 | the strategy's own hedge intent is against its order, of the size filled, 10 basis points through the Lighter mid |
| HlMaker.HlMakerLighterHedger.Make | src/strategy.cpp:67-74 | no object exactly for a non-positive spread or a negative band |
| HlMaker.HlMakerLighterHedger.Snapshot | src/strategy.cpp:92-153 | gate, placement and cancel decision of a snapshot, in place |
| HlMaker.HlMakerLighterHedger.MakerFill | src/strategy.cpp:155-179 | a fill opens a position and asks for the opposite hedge of its size |
| HlMaker.HlMakerLighterHedger.HedgeFill | src/strategy.cpp:181-188 | a hedge fill completes the open position |
| HlMaker.HlMakerLighterHedger.HedgeReject | src/strategy.cpp:190-201 | a rejected hedge asks for the unwind |
| HlMaker.HlMakerLighterHedger.ResetAll | src/strategy.cpp:203-208 | everything but the disarm time is forgotten |
| HlMaker.HlMakerLighterHedger.Disarm | src/strategy.cpp:282-285 | the gate opens and the disarm time is set |
| HlLifecycle.StepKeepsSound | src/engine.cpp:56-842 | every event keeps: no open position between events, deferral slot and timer filled together, only the latest acknowledged placement remembered, on its true side |
| HlLifecycle.RunKeepsSound | src/engine.cpp:56-842 | the same over every run |
| HlLifecycle.LifecycleBreaksOnlyOnLateFill | src/engine.cpp:56-842 | the full lifecycle invariant is kept by every event except, exactly, an accepted fill that arrives while a placement is deferred |
| HlLifecycle.RunKeepsLifecycle | src/engine.cpp:485-842 | over runs without a late fill an active order is the one remembered, held by the strategy on the remembered side, no placement waits, and a speculative hedge belongs to it |
| HlProgress.NoIntervalNoDeferral | src/engine.cpp:502-571 | without a rate limit nothing is ever deferred, so the lifecycle holds over every run |
| HlProgress.LateFillCanGoNaked | src/engine.cpp:444-447 | a run in which every request is granted and a late fill leaves one whole order unhedged: the hypothesis is needed |
| HlProgress.WedgedUntilAcceptedFill | src/engine.cpp:572-575 | a strategy waiting for a cancelled order that the engine does not have is freed by an accepted fill and by nothing else |
| HlProgress.WedgedForever | src/engine.cpp:572-575 | with no remembered order it never sends anything again, in any run |
| HlWitness.RefusedPlacementWedges | src/engine.cpp:532-575 | two ticks from a fresh start reach that state: a refused placement, then a spread that no longer holds |
| HlProgress.WedgeArises | src/engine.cpp:502-575 | an engine gets into that state exactly on a tick with a valid snapshot that no longer holds the pending order while no order is active, be it that the placement was refused or that it is parked by the rate limiter and stays so in this tick; no other event leads there |
| HlProgress.FailedPlacementWedges | src/engine.cpp:539-575 | in particular an unacknowledged order with nothing deferred wedges the engine exactly when a valid snapshot no longer holds it |
| HlWitness.GrantedRunWedges | src/engine.cpp:502-575 | a run from a fresh start in which every request is granted ends in the permanent state: the spread reverts while a placement is parked |
| HlProgress.StuckArises | src/engine.cpp:560-642 | an engine gets to wait for a cancel that is not coming exactly when a tick cancels an order that it does not have or the exchange refuses the cancel of the strategy's order |
| HlProgress.StuckUntilClosingFill | src/engine.cpp:103-642 | from there a fill that closes the order frees it and nothing else does, and it neither places nor cancels before |
| HlProgress.StuckOverRuns | src/engine.cpp:103-642 | over every run it stays stuck all along exactly while no fill closes its order |
| HlWitness.RefusedCancelSticks | src/engine.cpp:635-640 | a run from a fresh start in which a refused cancel leaves it stuck behind a live order |
| HlProgress.StepKeepsGate | src/strategy.cpp:92-285 | the gate invariant inside the engine, for every event |
| HlProgress.RunKeepsEngineGate | src/strategy.cpp:92-285 | and over every run of the engine |
| HlProgress.PlacementOrigin | src/engine.cpp:56-101 | a placement is sent only by a tick, and it is the order that the tick's books call for, at or above the effective threshold, or the parked order that is due |
| HlProgress.ParkedOrderIsSent | src/engine.cpp:485-705 | the parked order goes out exactly when it is due, the position limit allows it and the rate limiter lets it pass, whatever the spread and the age of the quotes |
| HlWitness.ParkedOrderGoesOutBelowThreshold | src/engine.cpp:693-705 | a run in which it goes out at its old price at a spread of zero |
| HlNeutrality.ExposureIsConserved | src/engine.cpp:103-842 | event by event, late fills included: the naked exposure moves by exactly the residual of the fill, trade or cancel plus the leak (a speculative hedge that a new order's acknowledgement forgets, or one sent for the strategy's order while another was active), and the booked position departs from the true one only by fills that were not booked |
| HlNeutrality.LifecycleLeaksNothing | src/engine.cpp:539-842 | while the lifecycle invariant holds, nothing leaks |
| HlNeutrality.RunExposure | src/engine.cpp:103-842 | over every run the exposure moves by the sum of the residuals and leaks |
| HlNeutrality.TimelyRunLeaksNothing | src/engine.cpp:103-842 | over a run without a late fill that sum is of the residuals alone |
| HlNeutrality.ServedResidual | src/engine.cpp:120-244 | a served event leaves nothing, a near match at most the tolerance 0.001 |
| HlNeutrality.RunKeepsBalance | src/engine.cpp:103-842 | over every run, late fills included, with fill sizes and pair size not negative: booked plus Lighter position plus outstanding speculative hedge moves by at most 0.001 per near match plus the sizes of the corrections and cancel unwinds that failed plus the sizes that leaked, and the booked position departs from the true one by exactly the fills that were not booked |
| HlNeutrality.TallyFollowsRun | src/engine.cpp:103-842 | the errors are tallied along the run itself |
| HlNeutrality.RunStaysNeutral | src/engine.cpp:103-842 | in particular, in a run without a late fill where also no fill of a known order is forgotten and every hedge-or-unwind, correction and cancel unwind goes through, a flat book stays flat up to 0.001 per near match |
| HlNeutrality.EveryRunIsHedged | src/engine.cpp:103-842 | from a flat start, in every run with fill sizes and pair size not negative: booked position plus net Lighter position is minus the signed size of an outstanding speculative hedge, else zero, up to 0.001 per near match plus the sizes that failed and leaked; and up to the same errors the true exposure of both venues is exactly the fills that were not booked |
| HlNeutrality.TimelyTallyLeaksNothing | src/engine.cpp:103-842 | in a run without a late fill no size leaks |
| HlNeutrality.BookedPositionIsHedged | src/engine.cpp:103-842 | in a run without a late fill the same with no leaked sizes: up to 0.001 per near match plus the sizes of failed corrections and cancel unwinds; dropped fills and failed HL unwinds are allowed |
| HlNeutrality.ExposureIsWhatWasNotBooked | src/engine.cpp:103-842 | nor are there leaked sizes in the true exposure of both venues: up to the same errors it is exactly the fills that were not booked |
| HlNeutrality.FreshIsFlat | include/arb/engine.hpp:79-106 | a new engine is such a start |
| HlNeutrality.FreshEngineIsHedged | src/engine.cpp:103-842 | so the booked position of a new engine is hedged in this sense after every run of it |
| HlSafety.AcceptedFillIsLatest | src/engine.cpp:103-107 | with no assumption on deferral, an accepted fill is of the latest acknowledged placement and is hedged on that order's side and in full |
| HlSafety.ReconciledOrderDropsItsNextFill | src/engine.cpp:115-209 | after a reconciliation the next fill of the same order is still accepted exactly when the first was short of the hedge by the tolerance or over it by exactly the tolerance |
| HlSpeculation.ClosedRemainderIsSmall | src/engine.cpp:115-171 | what a reconciliation so drops is less than 0.001 of the order, unless the order was overfilled |
| HlWitness.LastPartIsDropped | src/engine.cpp:115-139 | a run in which one unit fills as 0.9995 and 0.0005 and the second part is dropped |
| HlSafety.OvershootUnwindSize | src/engine.cpp:120-174 | the correction has a positive size except when the fill exceeds the hedge by exactly the tolerance |
| HlSafety.UnblockedOrderFits | src/engine.cpp:486-501 | an order that passes the limit check cannot carry the position past the cap |
| HlSafety.PositionBound | src/engine.cpp:486-545 | over every run with mids of at least m and no overfill, the position stays within (max_position_usd + pair_size_usd)/m, deferred placements, partial and late fills included |
| HlSafety.RunStaysBounded | src/engine.cpp:127-270 | the inductive form: also what the remembered order may still fill stays within the cap |
| HlSafety.SendRateIsLimited | src/engine.cpp:502-571 | n placements span at least n - 1 intervals, and so do n cancels |
| HlSafety.DeferredCancelHitsItsOrder | src/engine.cpp:693-721 | a cancel deferred for any time names the order that was active when it was raised |
| HlSpeculation.PlacementFindsNothingOutstanding | src/engine.cpp:485-559 | in the lifecycle invariant a placement is sent only when no order is active and no speculative hedge is outstanding |
| HlSpeculation.RunPlacesOneAtATime | src/engine.cpp:56-842 | so it is after every run without a late fill |
| HlSpeculation.RunKeepsMatched | src/engine.cpp:539-642 | over runs without a late fill the strategy's pending order, and an outstanding speculative hedge, have the size at which the active order was placed |
| HlSpeculation.SpeculativeHedgeHasPlacedSize | src/engine.cpp:723-838 | after any such run a trade causes at most one request: the opposite Lighter IOC of the active order's placed size, with none outstanding, never for a trade older than the order; it exceeds what still rests by exactly what has filled |
| HlSpeculation.UnderfilledOrderIsHedgedAgain | src/engine.cpp:172-206 | after a fill short of its hedge the order stays active, and the next trade through it sends the whole placed size again |
| HlWitness.MoreThanRestsIsHedged | src/engine.cpp:172-838 | a run in which 0.6 of a unit rests and the next trade sends a whole unit |
| HlSpeculation.OneSpeculationAtATime | src/engine.cpp:733-736 | while a speculative hedge is outstanding a trade changes nothing |
| TakerPrices.IocsCrossTheMid | src/engine.cpp:135-632 | a Lighter IOC of the forward engine sells below the Lighter mid or buys above it, by at most 15 basis points, exactly when there is a mid; without one its price is zero |
| TakerPrices.ReverseHedgeCrossesTheBook | src/strategy.cpp:57-63 | the reverse hedge buys above the HL ask or sells below the HL bid exactly when that quote is there, and its unwind crosses the Lighter mid by at most 15 basis points exactly when there is one |
| TakerPrices.ClosingOrdersReduce | src/strategy.cpp:214-228 | an order below the opening threshold reduces the position, so the position limit never blocks it |
| TakerPrices.ClosingThresholdApplies | src/strategy.cpp:214-228 | the closing threshold is in force exactly when configured below the opening one and the direction is against the position |
| HlGate.RunKeepsGate | src/strategy.cpp:92-208 | idle means unarmed, pending means armed with the order's direction and entry, after every sequence of calls |
| HlGate.PlacementIsAtThreshold | src/strategy.cpp:92-130 | every placement that the strategy decides is at a valid snapshot at or above the effective threshold and after the rearm time; the engine may send it later (`HlProgress.PlacementOrigin`) |
| HlGate.PendingExactlyWhileHeld | src/strategy.cpp:131-153 | absent fills and resets an order is pending exactly while every valid snapshot keeps direction and band |
| HlGate.PlacementWaitsAfterCancel | src/strategy.cpp:210-285 | with a monotone clock a placement after a cancel is at least the rearm time later |
| HlGate.DisarmIsStamped | src/strategy.cpp:92-153 | the disarm time is set exactly by a valid snapshot that no longer holds a pending order or, after its cancel, a gate that armed again |
| PriceLaws.HlBuyLocksSpread | src/strategy.cpp:23-55 | an HL buy is at or below the HL bid and leaves the entry spread below the Lighter bid |
| PriceLaws.HlBuyIsHighest | src/strategy.cpp:23-32 | and it is the highest price that does both |
| PriceLaws.HlSellLocksSpread | src/strategy.cpp:23-55 | an HL sell is at or above the HL ask and leaves the entry spread above the Lighter ask exactly when that spread is below 100% |
| PriceLaws.HlSellIsLowest | src/strategy.cpp:34-39 | below 100% it is the lowest price that does both; from there on it is the HL ask |
| PriceLaws.LighterSellLocksSpread | src/strategy.cpp:429-454 | the mirrored law of a Lighter sell |
| PriceLaws.LighterSellIsLowest | src/strategy.cpp:42-50 | and it is the lowest price that does both |
| PriceLaws.LighterBuyLocksSpread | src/strategy.cpp:429-454 | the mirrored law of a Lighter buy; its price is positive exactly when the spread is below 100% |
| PriceLaws.LighterBuyIsHighest | src/strategy.cpp:51-55 | and it is the highest price that does both |
| PriceLaws.OrderIsWorthPairSize | src/strategy.cpp:242-245 | either order is worth the pair size at the average mid |
| LighterTaker.LighterMakerTakerEngine.OnMarketData | src/engine.cpp:877-906 | a tick of the reverse engine, in place |
| LighterTaker.LighterMakerTakerEngine.OnLighterFill | src/engine.cpp:908-919 | a fill of the active order is hedged, any other is dropped |
| LighterTaker.LighterMakerTakerEngine.OnHlHedgeReject | src/engine.cpp:921-924 | a rejection runs the strategy's action |
| LighterTaker.LighterMakerTakerEngine.ExecuteDeferred | src/engine.cpp:1123-1134 | a deferred action waits for its retry time and leaves the slot before it is executed |
| LighterTaker.LighterMakerTakerEngine.ExecuteAction | src/engine.cpp:938-1121 | dispatch of the reverse actions with the unwind of a failed hedge |
| SpreadLaws.ReverseSpread | src/engine.cpp:855-867 | the same spread law for the reverse engine |
| LtDecisions.IdleEnginePlaces | src/engine.cpp:877-906 | with nothing due an idle reverse engine places exactly when both books are whole and fresh, the spread reaches the opening threshold, the rearm time has passed and the rate limiter lets it pass; the order has the side of the spread, the worth of the pair size and the best price that keeps the spread; stopped by the rate limiter alone it is parked until the interval is over |
| LtDecisions.PlacementOrigin | src/engine.cpp:943-976 | in every reachable state a placement is sent only by a tick, with side, price and size of the order that the tick's books call for or of the due parked one |
| LtDecisions.PlacementIsRemembered | src/engine.cpp:943-976 | a placement stamps the send time and its order becomes active exactly when it is acknowledged and confirmed resting |
| LtDecisions.PendingOrderIsCancelled | src/strategy.cpp:312-362 | with nothing due the active order is cancelled by its index exactly when books that are whole and fresh no longer hold it, or that cancel is parked |
| LtDecisions.CancelIsRemembered | src/engine.cpp:977-1013 | an acknowledged cancel leaves nothing active and an idle strategy; a refused one keeps both |
| LtDecisions.CancelledEngineWaits | src/engine.cpp:877-906 | while a cancel is awaited a tick with nothing due sends nothing |
| LtDecisions.RunRetriesInTime | src/engine.cpp:1136-1150 | after every run a deferred placement or cancel waits for exactly the last one of its kind plus the interval |
| LtDecisions.DuePlacementGoesOut | src/engine.cpp:1123-1134 | a due placement goes out as it was parked or is parked for the same time again |
| LtDecisions.DueCancelGoesOut | src/engine.cpp:1123-1134 | a due cancel goes out for the order that is active by then or is parked for the same time again |
| LtDecisions.FillIsHedged | src/engine.cpp:908-1097 | a fill of the active order is hedged in full 10 basis points behind the HL quote and taken back 15 through the Lighter mid exactly when that did not fill; any other changes nothing |
| LtDecisions.ReportsAreIgnored | src/engine.cpp:921-924 | in every reachable state a rejection reported from outside changes nothing |
| LtDecisions.UnwindActionCovers | src/engine.cpp:1099-1117 | the unwind action takes the Lighter side of the open position back in full |
| LtDecisions.SendRateIsLimited | src/engine.cpp:1136-1150 | n placements span at least n - 1 intervals, and so do n cancels |
| LtMaker.LighterMakerHlHedger.Snapshot | src/strategy.cpp:312-362 | the reverse strategy's decision, in place |
| LtMaker.LighterMakerHlHedger.Make | src/strategy.cpp:287-294 | the same acceptance of configurations |
| LtMaker.LighterMakerHlHedger.MakerFill | src/strategy.cpp:364-384 | a Lighter fill opens a position and asks for the opposite HL hedge of its size |
| LtMaker.LighterMakerHlHedger.HedgeFill | src/strategy.cpp:386-392 | a hedge fill completes the open position |
| LtMaker.LighterMakerHlHedger.HedgeReject | src/strategy.cpp:394-404 | a rejected hedge asks for the Lighter unwind |
| LtMaker.LighterMakerHlHedger.ResetAll | src/strategy.cpp:406-411 | everything but the disarm time is forgotten |
| LtMaker.LighterMakerHlHedger.Disarm | src/strategy.cpp:468-471 | the gate opens and the disarm time is set |
| LtNeutrality.RunKeepsSound | src/engine.cpp:877-1150 | after every call the reverse strategy is in one of its three maker states without a position, and an active order is its own, at the side, price and size that the exchange was asked to rest |
| LtNeutrality.FillIsHedgedOnce | src/engine.cpp:908-1117 | a fill is hedged exactly when its order is active: one opposite HL IOC of its size, one reversing Lighter IOC if and only if that did not fill, and the order is closed |
| LtNeutrality.ExposureIsConserved | src/engine.cpp:1014-1117 | the net exposure moves by exactly what a fill's hedge fell short of |
| LtNeutrality.RunExposureIsDropped | src/engine.cpp:877-1134 | with no assumption on deferral, when IOCs fill fully or are taken back, the net exposure moves over any run by exactly the fills of confirmed orders that were not active any more |
| LtNeutrality.RunStaysNeutral | src/engine.cpp:877-1134 | so it never moves in such a run that drops no fill |
| LtNeutrality.SecondPartIsDropped | src/engine.cpp:908-1068 | the second of two fills of one order is dropped, and the exposure ends off by exactly its signed size |
| LtProgress.SplitFillGoesNaked | src/engine.cpp:908-1068 | such a run from a fresh start |
| LtNeutrality.WedgedForever | src/engine.cpp:977-1013 | a reverse engine that waits for a cancelled order it does not have is never freed and never sends again, not even after a fill |
| LtProgress.RefusedPlacementWedges | src/engine.cpp:943-1013 | two ticks from a fresh start reach that state |
| LtProgress.RunKeepsEngineGate | src/strategy.cpp:312-471 | the gate invariant inside the reverse engine, over every run |
| LtProgress.WedgeArises | src/engine.cpp:943-1013 | a reverse engine gets into that state exactly on a tick with a valid snapshot that no longer holds the pending order while no order is active and a parked placement, if there is one, stays parked |
| LtProgress.GrantedRunWedges | src/engine.cpp:943-1013 | a run in which every request is granted ends there |
| LtProgress.StuckArises | src/engine.cpp:977-1013 | it gets to wait for a cancel that is not coming exactly when a tick cancels an order that it does not have or the exchange refuses a cancel |
| LtProgress.StuckUntilFill | src/engine.cpp:908-1013 | from there an accepted fill frees it and nothing else does, and it neither places nor cancels before |
| LtProgress.StuckOverRuns | src/engine.cpp:908-1150 | over every run it stays stuck all along exactly while its order does not fill |
| Bisimulation.RunsStayRelated | src/strategy.cpp:312-411 | over any common sequence of calls the two strategies stay in corresponding states all along exactly when no call is such a parting one |
| Bisimulation.ActionsMatch | src/strategy.cpp:364-411 | action by action in such a run: same direction, size and entry, opposite maker side, same signed legs |
| Bisimulation.ClosingThresholdBreaksIt | src/strategy.cpp:214-228 | two related strategies, in any state that the gate invariant allows, part on a call exactly when it is a valid snapshot on which the unarmed forward gate may arm, with an effective threshold below the opening one, at a spread that reaches it |
| Decimal.FloatToWire | src/native_trading.cpp:455-471 | the stripping loop prints the wire text; its empty branch is dead |
| Decimal.WireShape | src/native_trading.cpp:455-471 | never empty, no trailing dot or fractional zero, integer zeros kept, worth exactly the units printed |
| Decimal.WireRoundTrip | src/native_trading.cpp:455-471 | the text reads back as the amount |
| Decimal.WireIsInjective | src/native_trading.cpp:455-471 | different amounts print differently |
| Decimal.WireIsUnique | src/native_trading.cpp:455-471 | it is the only well-formed text of its amount |
| MsgPack.ByteBuffer.Str | src/msgpack.cpp:5-14 | appends tag, length (truncated above 255) and bytes |
| MsgPack.ByteBuffer.Boolean | src/msgpack.cpp:16-18 | appends one of the two flag bytes |
| MsgPack.ByteBuffer.Uint | src/msgpack.cpp:20-41 | appends the integer in its shortest form, the shift loops included |
| MsgPack.ByteBuffer.ArraySize | src/msgpack.cpp:43-51 | appends an array header |
| MsgPack.ByteBuffer.MapSize | src/msgpack.cpp:53-61 | appends a map header |
| MsgPack.UintRoundTrip | src/msgpack.cpp:20-41 | every 64-bit integer decodes to itself, whatever follows |
| MsgPack.UintIsShortest | src/msgpack.cpp:20-41 | no form the decoder accepts is shorter |
| MsgPack.ArraySizeRoundTrip | src/msgpack.cpp:43-51 | sizes up to 65535 decode to themselves |
| MsgPack.MapSizeRoundTrip | src/msgpack.cpp:53-61 | sizes up to 65535 decode to themselves |
| MsgPack.StrRoundTrip | src/msgpack.cpp:5-14 | a string decodes to itself exactly when it has at most 255 bytes |
| MsgPack.ReadBackIffFits | src/msgpack.cpp:5-61 | a whole tree decodes to itself, and the rest is left alone, exactly when every length in it fits its prefix |
| Actions.Signer.OrderBytes | src/native_trading.cpp:406-435 | the packing calls of an order append its encoded tree, the nonce and the vault |
| Actions.Signer.CancelBytes | src/native_trading.cpp:437-453 | so do those of a cancel, with the parsed order id; none when it does not parse |
| Actions.Signer.AppendVaultAndNonce | src/native_trading.cpp:391-404 | appends the big-endian nonce, the vault flag and the address |
| ActionLaws.OrderJsonIsPrinted | src/native_trading.cpp:376-384 | the posted text of an order is the compact print of its tree |
| ActionLaws.OrderCarriesOneTree | src/native_trading.cpp:376-435 | the posted text reads as the tree for every request; the hashed bytes decode to that same tree exactly when price and size text fit one length byte |
| ActionLaws.CancelCarriesOneTree | src/native_trading.cpp:386-453 | the hashed bytes of a cancel decode to the tree of the parsed id; the posted text reads as that tree exactly when the id is canonical decimal |
| ActionFields.OrderCarriesRequest | src/native_trading.cpp:376-435 | the fields that a reader of the posted text, or of hashed bytes that decode, finds are those of the request: asset, side, price and size as amounts with eight decimals, reduce flag, time in force Ioc, Alo or Gtc, and behind the bytes nonce and vault |
| ActionFields.CancelCarriesRequest | src/native_trading.cpp:386-453 | so are those of a cancel: asset and parsed order id |
| ActionFields.OrderIdIsParsed | src/native_trading.cpp:437-453 | blanks, sign and leading zeros are skipped, the digits make the number and the rest is ignored; 2^64 or more does not parse, a minus sign negates modulo 2^64 |
| ActionFields.NoDigitNoOrderId | src/native_trading.cpp:437-453 | without a digit it does not parse |
| Preimage.OrderPreimageIsInjective | src/native_trading.cpp:391-435 | equal hashed bytes mean equal order, nonce and vault, at any price and size |
| Preimage.CancelPreimageIsInjective | src/native_trading.cpp:391-453 | the same for cancels |
| Preimage.OrderIsNoCancel | src/native_trading.cpp:406-453 | an order and a cancel never have equal bytes |
| Words.RotlMovesBits | src/crypto.cpp:29-31 | the two shifts rotate: bit z comes from bit z - shift modulo 64 |
| Keccak.ThetaStep | src/crypto.cpp:35-48 | the in-place loops compute theta of FIPS 202 section 3.2.1 |
| Keccak.PiWritesEachLaneOnce | src/crypto.cpp:50-55 | the index map is a bijection, inverse to the one of section 3.2.3 |
| Keccak.RhoPiStep | src/crypto.cpp:50-55 | the scattered rotations compute pi after rho |
| Keccak.ChiStep | src/crypto.cpp:57-61 | the third loop computes chi |
| Keccak.KeccakF | src/crypto.cpp:33-65 | the 24 in-place rounds compute Keccak-p[1600, 24] |
| KeccakTables.RotationTableIsWalk | src/crypto.cpp:21-27 | the rotation table is the triangular-number walk over the lanes |
| KeccakTables.RoundConstantsAreStandard | src/crypto.cpp:12-19 | the round constants are those of the standard's shift register |
| Sponge.LoadLane | src/crypto.cpp:75-80 | the shift loop loads eight bytes as the lane with their bits |
| Sponge.LastBlock | src/crypto.cpp:86-93 | the last block is the rest of the data under pad10*1, the one-byte case included |
| Sponge.PaddingIsInjective | src/crypto.cpp:86-93 | no two messages are padded to the same string |
| Sponge.Keccak256 | src/crypto.cpp:69-109 | the hash is the sponge of the padded bit string, for every byte string |
| Signing.OrderActionHash | src/native_trading.cpp:406-435 | the hash of an order is the digest of its preimage |
| Signing.CancelActionHash | src/native_trading.cpp:437-453 | the hash of a cancel is the digest of its preimage |
| Signing.AbsorbedOrderIsUnique | src/native_trading.cpp:391-435 | up to the permutation nothing is lost: orders absorbed alike are the same, with the same nonce and vault |
| Signing.AbsorbedOrderIsNoCancel | src/native_trading.cpp:391-453 | nor is an order ever absorbed like a cancel |
| JsonScan.ExtractJsonValue | src/hl_ws_post.cpp:36-105 | the scanner's loops compute the extraction function |
| JsonScan.ParsePostId | src/hl_ws_post.cpp:14-34 | the id field, absent, out of range or a number |
| JsonScanLaws.ValueKeeps | src/hl_ws_post.cpp:66-98 | a well-formed value leaves depth, string and escape state as they were and closes no outer bracket |
| JsonScanLaws.ValueIsCutOut | src/hl_ws_post.cpp:49-104 | a value is cut out exactly; a scalar, exactly when a terminator or the end follows |
| JsonScanLaws.ExtractFindsTheValue | src/hl_ws_post.cpp:36-105 | the value behind the first occurrence of the key is returned, whatever follows it |
| JsonScanLaws.FindIsFirst | src/hl_ws_post.cpp:37-40 | the occurrence used is the first |
| JsonScanLaws.ExtractStartsBehindSeparators | src/hl_ws_post.cpp:36-47 | whatever follows a key, the value is looked for behind exactly the blanks and colons |
| JsonScanLaws.BareTextIsCut | src/hl_ws_post.cpp:100-104 | text without quote or bracket is cut at the first comma or closing bracket or at the end; empty text has no value |
| JsonScanLaws.TruncatedValueIsNone | src/hl_ws_post.cpp:49-98 | a string, array or object that breaks off anywhere yields nothing |
| JsonScanLaws.PostIdIsReadBack | src/hl_ws_post.cpp:14-34 | an id printed in decimal is read back |
| JsonScanLaws.PostIdCases | src/hl_ws_post.cpp:14-34 | the id by what follows its first key: the number, out of range from 2^64 on, none without a digit or without the post channel |
| JsonScanLaws.NoKeyNoId | src/hl_ws_post.cpp:14-22 | nor is there one without the key |
| Nonce.SessionNoncesAreAnInterval | src/native_trading.cpp:1062-1079 | in any interleaving all returned nonces differ, those taken are an interval from the preloaded cache or the winner's remote value, and the cache is not zero again |
| Nonce.QuietSessionIsAnInterval | src/native_trading.cpp:1067-1079 | with no call under way the returned nonces alone are the interval |
| Nonce.CacheReturnsToZero | src/native_trading.cpp:1067-1079 | the cache returns to zero exactly when the last 64-bit value is taken |
| Nonce.SecondSessionRepeats | src/native_trading.cpp:1067-1079 | after that a nonce can be returned twice |
| Nonce.SoloCall | src/native_trading.cpp:1067-1079 | an undisturbed call returns the cached or remote nonce and leaves its successor |
| PostTransport.StepKeepsInv | src/hl_ws_post.cpp:161-252 | the invariant of map, slots, locks and threads is kept by every step |
| PostTransport.PendingIsUnwritten | src/hl_ws_post.cpp:161-252 | a slot in the map is unwritten except while a disconnect holds the map; every slot is written at most once |
| PostTransport.CallGetsItsOwnReply | src/hl_ws_post.cpp:161-252 | a call returns a timeout, a reply that arrived with its own id, or a disconnect error |
| PostTransport.NothingIsLeftBehind | src/hl_ws_post.cpp:161-252 | when all have finished, no entry and no lock is left |
| PostTransport.DeadlockIsReachable | src/hl_ws_post.cpp:176-186 | one caller and one disconnect can deadlock |
| PostTransport.DeadlockIsForever | src/hl_ws_post.cpp:242-245 | then neither moves again and the map is frozen |
| PostTransport.DeadlockArises | src/hl_ws_post.cpp:176-245 | this cycle of a timed-out caller and a disconnect handler is closed by two kinds of steps, exactly |
| PostProgress.BusyCanMove | src/hl_ws_post.cpp:161-252 | it is the only way to get stuck: while a call, a reply or a disconnect is under way, some step of one of them is enabled unless a caller and a handler are in that cycle |
| PostProgress.InternalRunsAreBounded | src/hl_ws_post.cpp:161-252 | with no new call, message or disconnect no schedule is longer than the work under way |
| PostProgress.EndsSettledUnlessDeadlocked | src/hl_ws_post.cpp:161-252 | so every such schedule ends, and where it can go no further every call has returned and every handler is done exactly when the cycle has not formed |
| PostProgress.WrittenBodyIsReturned | src/hl_ws_post.cpp:161-252 | a body written before its caller gave up is what the call returns, in every continuation |
| PostProgress.ReplyAnswers | src/hl_ws_post.cpp:176-239 | a reply with its id answers a waiting call, which returns that body and leaves no entry |
| PostProgress.SilenceTimesOut | src/hl_ws_post.cpp:176-190 | a call that wakes up before its slot is written returns a timeout and takes its entry out |
| PostProgress.DisconnectAnswersAll | src/hl_ws_post.cpp:241-252 | when a disconnect lets go of the map, every entry that was in it has a disconnect error |
| PostFeed.BodyOf | src/hl_ws_post.cpp:219-230 | the body picked for a reply |
| PostFeed.ArrivalIsFromConnection | src/hl_ws_post.cpp:202-240 | a handled message is a step that the correlation below allows: the parsed id with the body picked |
| PostFeed.CallGetsItsOwnMessage | src/hl_ws_post.cpp:202-252 | correlation in terms of message texts |
| PostFeed.BodyIsThePayload | src/hl_ws_post.cpp:219-230 | for a reply that is no error the body is exactly the text of its payload |
| PostFeed.ErrorBodyIsAroundThePayload | src/hl_ws_post.cpp:219-230 | for an error reply it is the error object around that text |
| PostFeed.BodyWithoutPayload | src/hl_ws_post.cpp:219-230 | without a payload or type it is the error object that says so |
| PostFeed.DisconnectBody | src/hl_ws_post.cpp:241-252 | the error object of a lost connection |

## Left out

- Network, HTTP, the WebSocket client, the external Lighter signer library, elliptic-curve signatures, clocks, configuration, the main loop, telemetry, the trade journal and log texts: they are answers of the environment, or absent.
- `dry_run`, the write-only fields (client order indexes, Lighter position, last Lighter API time) and every latency figure: they do not influence a decision.
- `set_hl_position` and the cancels that the main loop sends itself bypass the engine; runs do not contain them.
- The market-feed parsers, and the confirmation polling inside the Lighter IOC: only what the acknowledgement says is modelled.
- IEEE rounding, `round_sig_figs`, the scaled Lighter amounts: prices and sizes are reals in the engines and whole units of 10^-8, not negative, in the printer. The sum of fills is exact.
- 64-bit overflow of millisecond clocks, and the wrap of the request id after 2^64 requests.
- Hex conversion: the vault address is the byte string that it decodes to.
- src/risk.cpp, src/perf.cpp, the scripts, and the dual-maker design, which is not implemented.
- JsonScan.ParsePostId: a leading sign cannot occur, and an id of 2^64 or more is the exception of the conversion.
- JsonScanLaws.ExtractFindsTheValue: compact values only, since whitespace behind a scalar is part of what the scanner returns.
- ActionLaws.CancelCarriesOneTree: the reader accepts compact text only; an order id with leading blanks would be read by a reader that skips whitespace.
- Keccak.KeccakF: a lane is the sequence of its 64 bits, not a machine word; shift counts are below 64.
- MsgPack.ByteBuffer.Uint: bytes are integers below 256 and shifts are divisions.
- PostTransport.StepKeepsInv: a section under one lock is one step; timeouts may happen at any time; spurious wake-ups and the send itself have no effect on the state.
- Nonce.SessionNoncesAreAnInterval: holds while base and claims stay below 2^64; `CacheReturnsToZero` says exactly when that ends.
- The text of the request around the action payload, and the error body of a timeout, which is an outcome of its own.
- Hash collisions: nothing is claimed about the digests of different messages.
