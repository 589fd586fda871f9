# Straightedge: a Dafny model of its order, money and stop handling

Straightedge is a trading desk: it turns strategy signals and operator commands into
orders for a broker, and it is built around the fear of sending an order twice. This
project models the parts where that fear, and the money, live.

* **The order-send protocol.** `OrderProtocol` is a step machine over the desk's memory,
  the durable ledger of open attempts and the journal, with a crash step that wipes the
  memory only and a failure variant of every file write, down to the journal line that
  stops halfway. `Desk`, `Ledger` and `JournalLog` hold the objects themselves as classes;
  every desk command is tied to a legal run of the machine. `Confirm` is the record that
  carries a staged order through the journal.
* **The mailbox.** `Mailbox` is the step machine of the bridge, the two shared files and
  the Expert, which claims a request by renaming it, executes it once and answers with its
  id. `FileBridge` is the polling loop over that machine. `Composition` runs both machines
  together: a transmission is the bridge call that carries the client key.
* **The paper broker.** `Paper` holds the book and its money on values, `PaperRuns` what
  every run keeps, `PaperExact` what each request, fill and exit does, `PaperBroker` the
  object with its loops.
* **Risk.** `Risk` holds the state machine of the limits and its gates, `RiskExact` what
  they decide, `RiskRuns` the runs of one process, `RiskRestarts` those across restarts,
  `RiskManager` the object, `StateFile` the durable snapshot, `Sizing` the lots.
* **Indicators and stops.** `Indicators` has the loops of EMA, ATR and ADX with their
  bounds, `IndicatorLaws` what they mean for a trend, `Strategy` the stop management,
  `Market` prices and rounding.
* **Flatten, pairs, wire.** `Flatten` is the sweep and its report, `PairResolver` the split
  of a symbol into two currency codes, `Codec`, `CodecLines` and `CodecRoundTrip` the wire
  format.

Money and prices are exact reals; volumes are integers in units of 1e-8 lots where the
book needs them exact. Prices round to a decimal grid, half to even.

## What the environment is assumed to do

* Client keys are fresh and not empty. This is a real assumption: `inflight.py` draws 32
  random bits per key and checks nothing.
* The ledger file is not corrupted: a corrupt one reads as empty in the source. Its cap of
  64 entries is part of the model, evictions included: the laws of the protocol count them.
* A journal line that stops halfway lacks at least its closing brace, so it is unreadable.
* The Expert claims by an atomic rename, executes a claimed request at most once and
  answers with that request's id. It may also drop a request, refuse it, lose its reply or
  die, at any moment.
* Only where a row says so: every save of the snapshot succeeds and no day starts with
  negative equity (`RiskRestarts.Usual`), or UTC days do not go back
  (`RiskRestarts.Forward`). The law of the daily cap needs neither.
* Every symbol's minimum volume is positive (`Paper.Tradable`).

## What the model found

Each of these is a lemma, and the code is modelled as it is.

* Between the removal of the ledger entry and the clearing of the pending there is a
  window. A crash there, an exception, or a clearing record that is lost lets the same
  staged order go out again (`OrderProtocol.WindowResends`). A key is transmitted at most
  once, plus once for each such slip and each eviction of its ledger entry, on every run
  (`SentWithinSlips`). `ResendExactly` says for every world at rest which keys can go out
  again: those that are not in the ledger and are still held or restorable.
* A cancel sets the memory first and writes its record second. When that record is lost the
  order comes back with the next start and can go out after all
  (`OrderProtocol.ClearDisarmsExactly`, `ClearedResendsExactly`).
* Staging sets the memory first too. When the stage record is lost, the order the desk holds
  is in no record: no start brings it back, and an older order whose clearing was lost may
  come back in its place (`RecordedExactly`, `OlderOrderReturns`).
* Any of these records is also lost when the line before it stopped halfway: the next line
  is glued to it and both are unreadable, although the write succeeds
  (`JournalLog.OnlyGluedIsLost`).
* The cap of the ledger means that it protects no order for ever: after enough further
  unresolved sends, any order that is still staged or restorable can go out again
  (`ResendEver`).
* The reply "unresolved ... this order will NOT be sent again" is also given when nothing
  left, and when the verdict was recorded and only the `open` record failed. The order
  stays staged and its key is free, so it can go out again. `Desk.RepliesAreTrue` says
  exactly when the ledger holds the key, `Desk.UnresolvedMayGoOut` gives the plain case.
* The bridge counts its requests from zero in every life. A reply to a request of an
  earlier life can be handed to a caller of the next one, exactly when such a request or
  reply is still on its way at the start (`Mailbox.FreshBridgeExactly`).
* The identity in the comment on the flatten report, confirmed + elsewhere + survivors =
  requested, fails when the venue still shows a ticket whose close it confirmed, and when a
  sweep that could not be measured confirmed anything (`Flatten.IdentityExactly`).
* A record that cannot be written can end the sweep before it halts the engine: the
  clearing of a pending order, before anything is attempted, a failed cancel or close, a
  short fill (`Flatten.Engine.Flatten`). A short fill whose close could not be recorded is
  no survivor of its own (`Flatten.ShortFillSurvivesExactly`).
* A survivor that was opened in the same step as the sweep is not announced again by the
  fill scan (`Flatten.Engine.SweepThenScan`).
* A day that starts with negative equity writes a snapshot that the next start refuses to
  read (`StateFile.SaveLoadExactly`).
* A snapshot that could not be written halts for good, unless a daily-loss halt was already
  in force: then any other day lifts it (`RiskRuns.UnwritableLatchExactly`).
* A send whose record was lost, by a failed save or a crash before it, is a send the daily
  cap does not see after the next start (`RiskRestarts.CapSafety`).
* A UTC day that comes back starts over: a full allowance, a new day's start and no
  daily-loss halt. The automatic leg observes the account at the time of the bar and the
  main loop at that of the clock, so days can alternate. The sends of a day stay within the
  cap times the entries of the day, and that bound is reached (`RiskRestarts.CapSafety`,
  `RiskRestarts.DayComesBack`).
* "Never round up" is false for volume steps their digit count cannot write: with a step of
  0.25, three steps come back as 0.8 lots (`Sizing.NeverRoundedUpExactly`,
  `Sizing.QuarterStepRoundsUp`).
* The ADX counts the bars before its first full window as a spread of zero, so on the
  steadiest trend it starts at 100 / period and never reaches 100
  (`IndicatorLaws.AdxFullExactly`, `IndicatorLaws.TrendFillsAdx`).
* A stop that reaches breakeven exactly has no risk distance left, so it never moves again;
  every other stop still can (`Strategy.StopMovesExactly`).
* A sell's stop can be trailed to zero or below, where it is no stop any more. It takes a
  trail point at or below zero, or an entry that rounds to zero, in some accepted pass
  (`Strategy.StopStaysPositiveExactly`, `Strategy.NegativeQuoteRemovesStop`).
* The wire sanitiser lets a vertical tab through, and the decoder breaks lines there: what
  follows it in a comment is read as another key (`CodecRoundTrip.VerticalTabAddsKey`;
  `RequestRoundTripExactly` says which texts are affected).
* `client_id` is not among the text fields of the decoder, so a client key of digits only
  is read as a number and its leading zeros are lost
  (`CodecRoundTrip.ClientKeySurvivesExactly`).
* A float that `str` prints with an exponent and no dot is read as a text
  (`CodecRoundTrip.BareExponentIsText`).

## Model

| member | source | states |
|---|---|---|
| OrderProtocol.OneOpenAttempt | src/straightedge/engine.py:521-549 | over every run with crashes, timeouts, failed writes, evictions and restarts: a client key has at most one transmission that neither a settled verdict nor an eviction accounts for, a key not in the ledger has none, and none is there when the next transmission starts; without evictions the ledger shows exactly the open attempts |
| OrderProtocol.SentWithinSlips | src/straightedge/desk.py:375-500 | on every run whatsoever a key is transmitted at most once, plus once for each eviction of its ledger entry and each time its settled pending was not cleared for good |
| OrderProtocol.AtMostOnceInTotal | src/straightedge/desk.py:375-500 | hence at most once in total with no eviction and nothing lost between a verdict and the clearing of its pending |
| OrderProtocol.ResendExactly | src/straightedge/desk.py:419-454 | from a world at rest, and before its entry is evicted, a staged key can be transmitted again if and only if it is not in the ledger and is still held or restorable |
| OrderProtocol.ResendEver | src/straightedge/inflight.py:130-135 | with evictions allowed it can on some run if and only if it is still held or restorable, an open attempt in the ledger or not |
| OrderProtocol.FinishDisarmsExactly | src/straightedge/desk.py:236-240 | on every reachable world, a clearing after a verdict leaves the key restorable if and only if its stage record is in the log, the clearing record was lost and the live file still shows a confirm event |
| OrderProtocol.ClearDisarmsExactly | src/straightedge/desk.py:502-511 | the same for a cancel, an expiry or a refusal |
| OrderProtocol.ClearingDisarms | src/straightedge/desk.py:108-142 | and what a later start then brings back is the very order that was cleared, up to its expiry, a staged close included |
| OrderProtocol.ClearedResendsExactly | src/straightedge/desk.py:502-511 | an order that was cleared without a verdict can still be transmitted on some run, before an eviction, if and only if that holds and it has no open attempt |
| OrderProtocol.OlderOrderReturns | src/straightedge/desk.py:232-240 | when a clearing record and the next stage record are both lost, a start brings back the cleared order instead of the one the desk held, up to its expiry and the rotation of its record |
| OrderProtocol.RecordedExactly | src/straightedge/desk.py:232-234 | the key the desk holds is in some record of the log if and only if the record of its staging was not lost |
| OrderProtocol.WindowResends | src/straightedge/engine.py:677-705 | a concrete run that transmits one staged key twice: the crash falls between the settled verdict and the clearing |
| OrderProtocol.ReplayRestoresMemory | src/straightedge/desk.py:108-142 | after a crash at any point and a start, whatever records it writes before it restores, the keyed order the desk held is back if and only if its stage record is in the log, it has not expired and the live file still shows a confirm event; else its key does not come back. With its last confirm record written, a pending of either kind is back exactly, or none is |
| OrderProtocol.RunKeepsInv | src/straightedge/desk.py:144-167 | every run keeps: keys of staged and automatic orders are apart, the ledger holds only minted keys, and the last confirm record of the full log is the pending in memory, or that record was lost and then no record carries the key in memory |
| OrderProtocol.RunKeepsBooks | src/straightedge/inflight.py:151-177 | every run keeps, key by key: verdicts and evictions account for the transmissions up to the one attempt that may be open |
| OrderProtocol.BeginKeepsAccountsExactly | src/straightedge/inflight.py:130-149 | a begin keeps the ledger equal to the open attempts if and only if the cap evicts neither the new key nor an unsettled one |
| OrderProtocol.RunIsAccounted | src/straightedge/engine.py:625-705 | every run without eviction keeps the ledger equal to the open attempts, the send in progress included |
| OrderProtocol.DeadForever | src/straightedge/desk.py:456-500 | a minted key that is in the ledger, or neither held nor restorable, is not transmitted again for as long as its entry is not evicted |
| OrderProtocol.DisarmedStays | src/straightedge/desk.py:232-240 | once neither memory nor the live journal can bring a key back, no step makes it restorable |
| OrderProtocol.RestoreFacts | src/straightedge/desk.py:108-142 | what a restart restores is the last confirm event of the whole log, a stage record of a key that was staged |
| Desk.ConfirmRuns | src/straightedge/desk.py:375-500 | a confirm is a legal run of the protocol whatever risk, venue, ledger and journal answer, and leaves the desk ready |
| Desk.ConfirmTransmits | src/straightedge/desk.py:375-454 | a confirm transmits only the key it holds, once, before its expiry, not halted, and never a key with an open attempt |
| Desk.ConfirmSendsExactly | src/straightedge/desk.py:375-454 | a confirm transmits if and only if an order with a signal is pending, in time, on a running engine with a quote, the risk gate allowed it, its key has no open attempt, the check passed and the ledger entry was written; for a reverse also if its ticket was on the book, was closed, and the gate allowed it again |
| Desk.RefusedGate | src/straightedge/desk.py:411-418 | a refusal of the risk gate sends nothing, keeps the order staged unless it halts, and is what the operator reads unless its clearing record is lost |
| Desk.RefusedAfter | src/straightedge/desk.py:590-607 | a refusal after the close of a reverse sends nothing and clears the order |
| Desk.RepliesExactly | src/straightedge/desk.py:375-454 | when each reply is given, in the answers of gate, venue, ledger and journal: sent only on a good verdict that was recorded throughout, closed only when the close went through |
| Desk.PendingStaysExactly | src/straightedge/desk.py:375-500 | what was pending stays if and only if it is in time and an exception, a refusal without halt, an open attempt or a send without answer kept the confirm from an end |
| Desk.RepliesAreTrue | src/straightedge/desk.py:419-500 | what each reply to the operator means for the ledger and the pending; after "unresolved" the ledger holds the key if and only if the order left, no verdict was recorded and the cap did not drop it |
| Desk.UnresolvedMayGoOut | src/straightedge/desk.py:439-444 | a check that raises gives that reply with nothing sent, nothing new in the ledger and the order still staged |
| Desk.SendRuns | src/straightedge/engine.py:625-705 | the engine's send is a legal run of the protocol for every check, venue and write outcome |
| Desk.SendMeans | src/straightedge/engine.py:625-705 | a send transmits if and only if its key is free, the check passed and the ledger entry was written, and answers a verdict if and only if the venue gave it and everything after it was recorded |
| Desk.AutoRuns | src/straightedge/engine.py:730-782 | the automatic send under a fresh key is a legal run and leaves the desk's pending as it was |
| Desk.StageRuns | src/straightedge/desk.py:307-373 | staging when nothing unexpired is pending is a legal step that leaves the desk ready |
| Desk.StagedSendsExactly | src/straightedge/desk.py:307-327 | a staged order is what the desk then holds; staging sends it if and only if approve always is on, its record was written and the confirm sends it |
| Desk.Desk.constructor | src/straightedge/desk.py:101-142 | the restoring end of a start, on any files an earlier process and the first records of this start left, gives the protocol's restart state; the approve mode comes back from the live journal, the real-money arm only as expired |
| Desk.Desk.RestoreFromJournal | src/straightedge/desk.py:108-142 | the reading loops and the record they may write give exactly the protocol's restore of the log before that record |
| Desk.Desk.SetPending | src/straightedge/desk.py:232-234 | memory and journal move as the protocol's stage step, failed write included |
| Desk.Desk.ClearPending | src/straightedge/desk.py:236-240 | memory and journal move as the protocol's clear step, failed write included |
| Desk.Desk.EngineSend | src/straightedge/engine.py:625-705 | the object's send moves ledger and journal exactly as the specified steps and answers as specified, on every failure path |
| Desk.Desk.Confirm | src/straightedge/desk.py:375-500 | the confirm and the reverse leave exactly the specified world and reply, for every answer or exception of the outside and every record of a rejection, a close or a report on the way, written or not |
| Desk.Desk.StageOrder | src/straightedge/desk.py:307-327 | nothing but the record of the refusal is added when an unexpired order is pending or the gate refuses; otherwise the order is staged, and confirmed at once under approve always |
| Desk.Desk.StageClose | src/straightedge/desk.py:329-373 | the same for a staged close, which carries a ticket and no client key, and is refused without a ticket on the book |
| Desk.Desk.Cancel | src/straightedge/desk.py:502-511 | the pending is gone and its cancel record written, if there was one; "cancelled" is said only when the write succeeded |
| Desk.Desk.WriteAll | src/straightedge/desk.py:172-231 | the records beside the protocol's own go to the journal in order, whatever becomes of each |
| Desk.Desk.AutoSend | src/straightedge/engine.py:730-782 | the automatic send moves ledger and journal as specified and leaves the pending alone |
| Desk.Desk.BeginAttempt | src/straightedge/inflight.py:151-163 | the ledger gains the new key less what the cap drops if the write lands, and nothing otherwise |
| Desk.Desk.SettleAttempt | src/straightedge/inflight.py:165-177 | the ledger loses exactly the settled key if the write lands, and nothing otherwise |
| Confirm.RecordRoundTrip | src/straightedge/desk.py:46-83 | reading back the written record gives the very same staged order if and only if it has a signal or a ticket and no flat signal |
| Confirm.SignalRoundTrip | src/straightedge/desk.py:144-167 | every field of a tradable signal survives the record |
| Confirm.ExpiryOfRecord | src/straightedge/desk.py:108-142 | the expiry that is read before the rest is the order's own |
| JournalLog.LastOfIsLast | src/straightedge/journal.py:88-105 | the search returns a record if and only if its event is wanted and no wanted event follows it |
| JournalLog.LiveNeverDisagrees | src/straightedge/journal.py:59-68 | rotation hides records and never resurrects one: the live file answers what the whole log answers, or nothing |
| JournalLog.LiveAfterPut | src/straightedge/journal.py:46-68 | after a wanted record that lands both answer it; after anything else the answer of the whole log stays and that of the live file stays or is rotated away |
| JournalLog.OnlyGluedIsLost | src/straightedge/journal.py:46-57 | a written record is unreadable if and only if it runs into a line that stopped halfway and no rotation came between; the next one is safe |
| JournalLog.HalfLineSwallows | src/straightedge/journal.py:46-57 | a line that stops halfway swallows the next record unless that one rotates the file; a write that lands or fails outright swallows nothing |
| JournalLog.LiveStaysSmall | src/straightedge/journal.py:59-68 | after a write the live file holds at most 10 MB or only what that write put there, and nothing is rotated away that would fit |
| JournalLog.LastOfAppend | src/straightedge/journal.py:88-105 | the last record of two pieces in a row is that of the second, else of the first |
| JournalLog.Journal.Write | src/straightedge/journal.py:46-57 | the object moves as the specified log, for a write that lands, fails or stops halfway; the earlier live file becomes the archive exactly when it is rotated |
| JournalLog.Journal.RotateIfNeeded | src/straightedge/journal.py:59-68 | the live file moves whole to the archive exactly when it exists and the next record would take it past the limit |
| JournalLog.Journal.LastEvent | src/straightedge/journal.py:88-105 | the loop returns the last record with a wanted name |
| Ledger.InflightLedger.Store | src/straightedge/inflight.py:130-149 | what is kept is everything up to 64 entries, else 64 that are newest by first attempt; a failed write changes nothing |
| Ledger.InflightLedger.Begin | src/straightedge/inflight.py:151-163 | one more attempt at the key, with the first time stamp kept |
| Ledger.InflightLedger.Resolve | src/straightedge/inflight.py:165-177 | exactly the resolved key goes; an unknown key leaves the file untouched |
| Ledger.InflightLedger.Get | src/straightedge/inflight.py:123-125 | an entry is found exactly when the readable file holds the key |
| Ledger.RoomKeepsAll | src/straightedge/inflight.py:130-149 | with at most 64 entries the cap loses nothing |
| Ledger.AttemptedExactly | src/straightedge/inflight.py:151-163 | an attempt keeps the first time stamp of its key, counts one more and leaves every other entry |
| Mailbox.ExecutedAtMostOnce | src/straightedge/broker/mt4_live.py:460-519 | at every interleaving of bridge, Expert, crashes and file errors a request is executed at most once, and one reported withdrawn never, at any later step either |
| Mailbox.WithdrawalIsTheTruth | src/straightedge/broker/mt4_live.py:327-380 | withdrawn and locked mean the Expert never took the request, claimed means it did, and withdrawn means the shared name is empty |
| Mailbox.RepliesAreOwn | src/straightedge/broker/mt4_live.py:481-519 | within one bridge's life every text handed to a caller is the reply to that very request, late replies to abandoned requests notwithstanding |
| Mailbox.FreshBridgeExactly | src/straightedge/broker/mt4_live.py:413-419 | across a restart that holds if and only if nothing of the earlier life is still in the mailbox or with the Expert |
| Mailbox.ForeignMisleads | src/straightedge/broker/mt4_live.py:413-419 | otherwise a run exists in which a caller is handed the reply to another request |
| Mailbox.RunKeepsInv | mt4/README.md:13-17 | every run keeps one copy of each request, and only an unexecuted, not withdrawn one can still be claimed |
| Mailbox.RunKeepsNumbered | src/straightedge/broker/mt4_live.py:413-419 | every run keeps wire ids counting the requests of the current life, and replies carrying the id of their request |
| Mailbox.RunGrows | src/straightedge/broker/mt4_live.py:460-519 | no step forgets an execution, a withdrawal or a request |
| FileBridge.FileBridge.Call | src/straightedge/broker/mt4_live.py:413-519 | the call is a run of the mailbox machine; it ends with a text if and only if a poll sees this call's id and the file operations go through, else with the withdrawal that the shared name and its lock decide; the text answers this very request with nothing foreign in flight, and a timeout's withdrawn, claimed or locked is what became of the request |
| FileBridge.FileBridge.PollForReply | src/straightedge/broker/mt4_live.py:494-505 | the polling ends with a reply if and only if at some poll the shared reply has this request's id; otherwise the request is still waiting at the deadline |
| FileBridge.FileBridge.WithdrawRequest | src/straightedge/broker/mt4_live.py:460-479 | the answer of the removal is the truth about who has the request |
| FileBridge.FileBridge.TakeReply | src/straightedge/broker/mt4_live.py:500-504 | both files are cleaned up before the text is handed over, and an error there hands over nothing |
| FileBridge.FileBridge.ExpertTurn | mt4/Experts/Mt4RiskBot.mq4:279-463 | whatever the Expert does between two file operations, the bridge's own state stays |
| FileBridge.PromptAnswer | src/straightedge/broker/mt4_live.py:481-505 | an Expert that takes the request, executes it and answers between two polls is heard, whatever stale reply was there |
| FileBridge.SilenceIsNoAnswer | src/straightedge/broker/mt4_live.py:481-505 | an Expert that delivers nothing once the stale reply was removed is not |
| Composition.StagedOrderExecutedOnce | src/straightedge/desk.py:375-500 | end to end on every joint run: executions and withdrawals of a staged order never exceed one plus its evictions and slips; with none of these it is executed at most once, and never after a withdrawal |
| Composition.UnresolvedExecutedOnce | src/straightedge/engine.py:521-549 | with crashes anywhere: executions of a key never exceed its settled verdicts, its evictions and the one attempt the ledger may show |
| Composition.ExecutedWithinSent | src/straightedge/broker/mt4_live.py:413-519 | executions plus withdrawals of a key never exceed its transmissions |
| Composition.SentIsCarried | src/straightedge/engine.py:625-705 | transmissions of a key are exactly the mailbox requests that carry it |
| Composition.Projects | src/straightedge/broker/mt4_live.py:413-419 | a joint run is a run of the protocol and a run of the mailbox, ending in the two halves of its last world |
| Paper.PnlIsDirectional | src/straightedge/broker/paper.py:188-194 | profit is the price distance in the position's direction, in ticks, times tick value and lots |
| Paper.FractionOfPnl | src/straightedge/broker/paper.py:395-411 | the closed fraction of the whole profit is the profit of the closed lots |
| Paper.ClosingKeepsEquity | src/straightedge/broker/paper.py:395-566 | every request but an opening deal leaves equity exactly unchanged: a full close, a partial close of any size, a close-by with or without remainder, new levels, order changes |
| Paper.OpeningCostsTheGap | src/straightedge/broker/paper.py:342-393 | an opening deal costs exactly the gap between its rounded entry and the price on the other side; on grid quotes the free margin stays above minus that cost |
| Paper.CloseByKeepsEquity | src/straightedge/broker/paper.py:425-467 | closing two positions against each other at their marks leaves equity unchanged |
| PaperRuns.BookIntegrity | src/straightedge/broker/paper.py:322-668 | over every run: tickets of orders and positions are distinct, disjoint and below the next one, nothing has zero volume, and the balance is the initial balance plus the profit of every slice ever closed |
| PaperRuns.OpenedIsSound | src/straightedge/broker/paper.py:118-138 | the empty book starts in that state |
| PaperRuns.CommittedTickets | src/straightedge/broker/paper.py:322-393 | an accepted opening adds exactly the next ticket; no other request adds a ticket or moves the counter |
| PaperRuns.CommittedSound | src/straightedge/broker/paper.py:322-566 | every request, accepted or not, keeps tickets distinct and below the counter |
| PaperRuns.CommittedBalanced | src/straightedge/broker/paper.py:395-467 | every request moves the balance by the realised profit of the slices it closes, and by nothing else |
| PaperRuns.CommittedStocked | src/straightedge/broker/paper.py:322-566 | no request leaves an empty position or order behind |
| PaperRuns.ResolveKeepsTickets | src/straightedge/broker/paper.py:622-644 | filling keeps the union of tickets, and exactly the returned tickets moved from the orders to the positions, none twice |
| PaperRuns.ResolvedMoves | src/straightedge/broker/paper.py:592-644 | each order of the snapshot fills at most once, under its own ticket, and nothing else on the book changes |
| PaperRuns.OnBarExactly | src/straightedge/broker/paper.py:646-668 | the tickets a bar returns are exactly those that left the book, fills of the same bar included, and the accounts stay balanced |
| PaperRuns.ExitedExactly | src/straightedge/broker/paper.py:657-691 | a position leaves if and only if the bar touched its stop or target; the others stay as they were |
| PaperRuns.StopWins | src/straightedge/broker/paper.py:670-691 | a bar that touches both levels exits at the stop, the worse of the two |
| PaperExact.FillsExactly | src/straightedge/broker/paper.py:568-644 | a working order fills if and only if its symbol is asked for, its price was reached from its own side (the bar's low for a buy limit and a sell stop, its high for a sell limit and a buy stop; ask and bid without a bar) and its margin is free on the book the orders before it left |
| PaperExact.LimitNeedsItsPrice | src/straightedge/broker/paper.py:580-590 | a limit never fills at a price the bar did not reach |
| PaperExact.FillOpens | src/straightedge/broker/paper.py:592-616 | a filled order is the position of its ticket, symbol, side, volume, price and levels, and no order any more |
| PaperExact.ExitsExactly | src/straightedge/broker/paper.py:657-691 | a position leaves on a bar if and only if the bar reached its stop or its target, whole, at the stop if both; the others stay as they were |
| PaperExact.BarIsAppended | src/straightedge/broker/paper.py:646-656 | the bar ends its series, the other series stay, and the quotes stand half a spread around its close |
| PaperExact.TickIsAroundClose | src/straightedge/broker/paper.py:165-173 | a tick is the last close, or 1, with half the spread on either side |
| PaperExact.OpensExactly | src/straightedge/broker/paper.py:342-393 | an opening deal: the first failing test names the code, and an accepted one opens exactly what was asked for, a buy at the ask and a sell at the bid |
| PaperExact.ClosesExactly | src/straightedge/broker/paper.py:395-423 | a close takes exactly these units off this position, at the bid for a buy and the ask for a sell |
| PaperExact.CloseByExactly | src/straightedge/broker/paper.py:425-467 | both positions lose the smaller volume, unless that leaves one of them below the minimum |
| PaperExact.LevelsExactly | src/straightedge/broker/paper.py:469-480 | new levels are those of the request, rounded, an absent one kept, on this position only |
| PaperExact.AmendsExactly | src/straightedge/broker/paper.py:482-506 | an amended order is what the request gives, rounded; a price of zero reads as absent |
| PaperExact.PlacesExactly | src/straightedge/broker/paper.py:508-550 | a placed order is exactly the one asked for, under the next ticket |
| PaperExact.RemovesExactly | src/straightedge/broker/paper.py:552-566 | a removed order is gone, and only that |
| PaperExact.OthersRefused | src/straightedge/broker/paper.py:322-340 | nothing trades while trading is off, and an unknown action is refused |
| PaperBroker.PaperBroker.constructor | src/straightedge/broker/paper.py:118-138 | a new broker holds the empty book and meets the invariant |
| PaperBroker.PaperBroker.Apply | src/straightedge/broker/paper.py:322-340 | a dry run changes nothing and answers the code of the committed call; a committed call leaves exactly the specified book; the invariant holds either way |
| PaperBroker.PaperBroker.Open | src/straightedge/broker/paper.py:342-393 | code and new book of an opening deal |
| PaperBroker.PaperBroker.AccountFree | src/straightedge/broker/paper.py:180-219 | the loops compute equity minus used margin of the book |
| PaperBroker.PaperBroker.Close | src/straightedge/broker/paper.py:395-423 | code and new book of a close, computed from the whole position's profit and a fraction |
| PaperBroker.PaperBroker.CloseByOther | src/straightedge/broker/paper.py:425-467 | code and new book of a close-by |
| PaperBroker.PaperBroker.ModifySltp | src/straightedge/broker/paper.py:469-480 | code and new book of a level change |
| PaperBroker.PaperBroker.ModifyPending | src/straightedge/broker/paper.py:482-506 | code and new book of an order amendment; a price of zero reads as absent |
| PaperBroker.PaperBroker.PlacePending | src/straightedge/broker/paper.py:508-550 | code and new book of a working order |
| PaperBroker.PaperBroker.RemovePending | src/straightedge/broker/paper.py:552-566 | code and new book of a removal |
| PaperBroker.PaperBroker.FillPending | src/straightedge/broker/paper.py:592-616 | the order moves to the positions exactly when its margin is free |
| PaperBroker.PaperBroker.ResolvePending | src/straightedge/broker/paper.py:622-644 | the loop over a snapshot of the orders leaves the specified book and list |
| PaperBroker.PaperBroker.OnBar | src/straightedge/broker/paper.py:646-668 | append, fill, exit: the specified book and list, with the invariant kept |
| PaperBroker.PaperBroker.ExitTouched | src/straightedge/broker/paper.py:657-668 | the exit loop over a snapshot leaves the specified book and list |
| Risk.AllowedIsSafe | src/straightedge/risk.py:512-691 | every allowed decision has a positive volume within the venue's maximum whose full stop-out stays at or above both floors, on a day with trades left, with no currency netting past its limit, while nothing is halted |
| Risk.OpenedStaysWithinLimits | src/straightedge/risk.py:536-583 | the position of an allowed order leaves no more of ours than the maximum, one per symbol, and no currency past its net limit |
| Risk.AllowedMeetsMarketGates | src/straightedge/risk.py:585-652 | an allowed order has a real stop at the venue's distance, a reward worth its risk, a spread within its share of the ATR, a tolerance of the demanded number of spreads and a margin buffer |
| Risk.SizeExceedsOnlyByRoom | src/straightedge/risk.py:655-691 | the last-line refusal can only come from the loss room; the sizer already kept the per-trade half for every specification |
| Risk.RoomIffClear | src/straightedge/risk.py:489-510 | the loss room is positive if and only if no equity halt holds |
| Risk.ReasonAgreesWithCircuit | src/straightedge/risk.py:444-487 | the read-only reason and the circuit agree on whether and why trading is refused |
| Risk.ExposureIsNet | src/straightedge/risk.py:181-212 | the counts of all legs give, for every currency, buys minus sells |
| Risk.CurrencyExposure | src/straightedge/risk.py:181-212 | the loop computes those counts for any list of legs |
| RiskExact.EvaluatesExactly | src/straightedge/risk.py:512-691 | with a clear circuit the reason of an evaluate is that of the first test that fails, in the source's order, and it allows, with the sizer's lots, if and only if none does; a manual proposal skips the session, positions are counted by magic number, a currency is past its limit when its net with this deal is, and the full stop-out stays within the trade's budget and the room to both halts |
| RiskExact.CircuitExactly | src/straightedge/risk.py:469-487 | the circuit is open if and only if there is no HALT file and no halt, the account may trade, and day loss and drawdown are below their shares; else the first that fails is the reason, and only what halts stays halted |
| RiskExact.ObservesExactly | src/straightedge/risk.py:396-417 | one observation, field by field: day roll, peak, counters, the one halt a new day lifts, and the save exactly when a durable field moved |
| RiskExact.OverexposedExactly | src/straightedge/risk.py:181-212 | a limit is passed if and only if buys minus sells of our positions and the proposed deal exceed it in some currency they touch |
| RiskExact.ClearsExactly | src/straightedge/risk.py:352-378 | the operator lifts every halt but a damaged or unwritten state, a daily loss and a drawdown that still hold |
| RiskExact.HaltHolds | src/straightedge/risk.py:396-487 | a halt holds over every sequence of steps without an operator and, for a daily loss, without a new day |
| RiskExact.DrawdownHolds | src/straightedge/risk.py:396-417 | no day lifts any other halt |
| RiskRestarts.CapSafety | src/straightedge/risk.py:288-428 | on every run whatsoever, with saves that fail, processes that die before the record of a send and UTC days in any order: the opening sends of a day never exceed the cap for each entry of the day plus the sends whose record never reached the file, and a manager that is not halted agrees with what a start would restore |
| RiskRestarts.DayComesBack | src/straightedge/engine.py:730-733 | the bound is reached: a proposal that opens on a day opens on it again once another day was seen in between, however small the cap |
| RiskRestarts.RestartSafety | src/straightedge/risk.py:288-428 | with saves that succeed, a crash between any two steps and UTC days in any order: disk equals memory in every durable field, the peak never falls and bounds every equity observed, the day's start is fixed until another day is entered, however deep the account falls |
| RiskRestarts.ForwardSafety | src/straightedge/risk.py:396-417 | when UTC days do not go back either: sends per day stay within the cap, up to those that died unrecorded, and the day's start is fixed within its day |
| RiskRestarts.SafeStep | src/straightedge/risk.py:380-428 | each single step, restart included, keeps what the disk would restore equal to memory |
| RiskRestarts.SoundStep | src/straightedge/risk.py:288-428 | each single step, whatever becomes of its save, keeps the counts of memory and file within the entries of their day |
| RiskRuns.UnreadableIsFatal | src/straightedge/risk.py:280-314 | a snapshot that cannot be read, is blank or no object, or has one unsound field: no sequence of steps opens the circuit, and the bad file is never overwritten |
| RiskRuns.StartsExactly | src/straightedge/risk.py:251-301 | a start is unhalted if and only if the file is missing or sound in every field, and then holds the configured balance or what the fields say |
| RiskRuns.LatchedForever | src/straightedge/risk.py:352-378 | a latched integrity fault that is not a daily-loss halt survives every sequence of steps, the operator's clearing included |
| RiskRuns.UnwritableLatchExactly | src/straightedge/risk.py:303-314 | a failed write can be followed by trading in the same process if and only if a daily-loss halt was in force, and then on any other day |
| RiskManager.RiskManager.constructor | src/straightedge/risk.py:251-301 | the object starts in the state the files determine |
| RiskManager.RiskManager.PersistState | src/straightedge/risk.py:303-314 | an unreadable file is never overwritten, and a save that fails, or that cannot be sealed afterwards, halts unless a halt is already in force |
| RiskManager.RiskManager.Observe | src/straightedge/risk.py:396-417 | the object takes exactly the observe step |
| RiskManager.RiskManager.RecordTrade | src/straightedge/risk.py:419-428 | one more opening send, on disk before the method returns |
| RiskManager.RiskManager.RecordAdviceTurn | src/straightedge/risk.py:430-433 | one more advice turn, on disk before the method returns |
| RiskManager.RiskManager.Circuit | src/straightedge/risk.py:469-487 | state and decision of the circuit step |
| RiskManager.RiskManager.CircuitReason | src/straightedge/risk.py:444-467 | the reason, with the observe it includes |
| RiskManager.RiskManager.EquityHaltReason | src/straightedge/risk.py:334-350 | which of the two equity halts holds for an equity, if one does |
| RiskManager.RiskManager.RoomForLoss | src/straightedge/risk.py:489-510 | the money that may still be lost before either equity halt |
| RiskManager.RiskManager.ClearOperatorHalt | src/straightedge/risk.py:352-378 | only what an operator may clear is cleared, and what remains is named |
| RiskManager.RiskManager.Evaluate | src/straightedge/risk.py:512-691 | state and decision of a proposal, circuit first |
| StateFile.SaveLoadExactly | src/straightedge/state.py:63-157 | a written snapshot reads back unchanged if and only if peak and day start are not negative; otherwise it is refused |
| StateFile.LoadsExactly | src/straightedge/state.py:63-135 | over every content: only a missing file is a clean start, and another is read if and only if it is an object with every field sound, then to exactly those values |
| StateFile.TruncatedTowardZero | src/straightedge/state.py:187-200 | a fractional time drops its fraction, toward zero |
| StateFile.VersionOneLoads | src/straightedge/state.py:63-121 | a file of version 1, without counters, restores both as zero |
| StateFile.DamagedFieldRefused | src/straightedge/state.py:106-183 | with any one numeric field replaced, counters included, a good file is read if and only if that field is sound |
| Sizing.LotsWithinBudget | src/straightedge/sizing.py:38-65 | positive lots keep the full stop-out within the risk budget and within the venue's limits |
| Sizing.LotsExactly | src/straightedge/sizing.py:38-65 | the lots are the budget over the cost of one lot's stop-out, in whole steps, and none when there is no budget or cost, or the rounded lots cost more than the allowed multiple |
| Sizing.LotsAreMost | src/straightedge/sizing.py:38-65 | one more step would cost more than the budget, unless the venue's maximum is reached |
| Sizing.NormalizesExactly | src/straightedge/sizing.py:24-36 | a volume becomes the most whole steps it holds, nothing below the minimum and at most the maximum |
| Sizing.NeverRoundedUpExactly | src/straightedge/sizing.py:24-36 | no volume, under any limits, comes back as more than the whole steps it was floored to, if and only if the step can be written in its own number of digits |
| Sizing.NeverRoundedUp | src/straightedge/sizing.py:24-36 | and then a volume comes back as at most 1e-12 of a step more than it was |
| Sizing.QuarterStepRoundsUp | src/straightedge/sizing.py:28-30 | and it is rounded up for a step of 0.25 |
| Indicators.DirectionalBounds | src/straightedge/indicators.py:47-75 | on every well-formed series and at every index +DI and -DI are not negative and add up to at most 100 |
| Indicators.AdxBounds | src/straightedge/indicators.py:47-75 | every ADX value is defined exactly from the first full window on and lies in 0 to 100 |
| IndicatorLaws.DirectionsExactly | src/straightedge/indicators.py:47-70 | at every index +DI times the smoothed true range is 100 times the smoothed rises of the high, -DI that of the falls of the low; without a range both are zero |
| IndicatorLaws.DirectionsPositive | src/straightedge/indicators.py:47-70 | +DI is above zero if and only if there is a range and the smoothing remembers a rise, -DI a fall |
| IndicatorLaws.RisingIsPlus | src/straightedge/indicators.py:47-70 | where highs and lows never fall, -DI is zero throughout and +DI above zero from a remembered higher high on |
| IndicatorLaws.FallingIsMinus | src/straightedge/indicators.py:47-70 | and the other way round where they never rise |
| IndicatorLaws.AdxExactly | src/straightedge/indicators.py:61-75 | what each bar adds to the ADX, times the sum of the two indices, is 100 times their distance |
| IndicatorLaws.AdxFullExactly | src/straightedge/indicators.py:61-75 | the ADX is 100 if and only if the period is one and the last bar is one-sided: bars before the first full window count as a spread of zero and are never forgotten |
| IndicatorLaws.TrendFillsAdx | src/straightedge/indicators.py:61-75 | a one-sided series brings it toward 100 at exactly the rate (period - 1) / period |
| IndicatorLaws.RisingAdx | src/straightedge/indicators.py:47-75 | so a steady rise has exactly that ADX |
| IndicatorLaws.EmaExactly | src/straightedge/indicators.py:8-17 | an EMA starts at its first value and then weighs each new one with 2 / (period + 1) |
| IndicatorLaws.WilderExactly | src/straightedge/indicators.py:32-40 | Wilder smoothing starts with the mean of the first window and then weighs each new value with 1 / period |
| IndicatorLaws.TrueRangeExactly | src/straightedge/indicators.py:20-29 | the true range is the greatest of the bar's own range and its distances to the last close |
| Indicators.NoLookahead | src/straightedge/indicators.py:8-75 | ATR and the three ADX outputs on a prefix are the prefix of the outputs on the full series, undefined region included |
| Indicators.EmaNoLookahead | src/straightedge/indicators.py:8-17 | the same for the EMA |
| Indicators.WilderNoLookahead | src/straightedge/indicators.py:32-40 | the same for Wilder smoothing of any series |
| Indicators.MovesWithinRange | src/straightedge/indicators.py:20-57 | both directional moves are not negative and their sum is at most the true range |
| Indicators.WilderDominates | src/straightedge/indicators.py:32-40 | Wilder smoothing keeps pointwise order: sums of non-negative series bounded by a third stay so |
| Indicators.EmaWithinRange | src/straightedge/indicators.py:8-17 | an EMA never leaves the range of the values it has seen |
| Indicators.Ema | src/straightedge/indicators.py:8-17 | the loop gives the EMA at every index; a period that is not positive is an error |
| Indicators.TrueRange | src/straightedge/indicators.py:20-29 | the loop gives the true range of every bar |
| Indicators.WilderSmooth | src/straightedge/indicators.py:32-40 | the in-place loop gives the smoothed value at every index, undefined before the first full window |
| Indicators.Atr | src/straightedge/indicators.py:43-44 | the smoothed true range |
| Indicators.DirectionalMoves | src/straightedge/indicators.py:50-57 | the loop gives both directional moves at every index |
| Indicators.Adx | src/straightedge/indicators.py:47-75 | the loops give all three outputs at every index |
| Indicators.DirectionalIndex | src/straightedge/indicators.py:61-74 | the in-place loop gives both indices and the spread at every index, skipping an unknown or zero range |
| Strategy.StopNeverLoosens | src/straightedge/strategy.py:92-122 | over any run of passes on any bars and with any refusals a buy's stop never falls, a sell's never rises, the target never moves, all on the price grid |
| Strategy.ManageTightens | src/straightedge/strategy.py:92-122 | one pass never loosens the stop and returns the target unchanged, rounding included |
| Strategy.ManageExactly | src/straightedge/strategy.py:92-122 | one pass in full: nothing without enough bars, a positive ATR and a distance from stop to entry; else the stop goes to the entry after a gain of the breakeven risks and to the trail point after that of the trailing risks, each only if closer |
| Strategy.AppliedExactly | src/straightedge/engine.py:474-488 | the engine applies it if a level moves by at least 1e-12 and the venue accepts |
| Strategy.NothingBeforeBreakeven | src/straightedge/strategy.py:101-110 | an adverse or short move changes nothing |
| Strategy.StopStaysPositiveExactly | src/straightedge/strategy.py:105-122 | over any run of passes a sell's stop is above zero at the end if and only if, in every pass that is sent and accepted, the entry it may be moved to does not round to zero and the point it may trail to is above zero; a buy's always is |
| Strategy.StopStaysPositive | src/straightedge/strategy.py:108-122 | positive quotes on the grid in every pass are enough for that |
| Strategy.NegativeQuoteRemovesStop | src/straightedge/strategy.py:114-122 | a concrete window on which a sell's stop at 10 is moved to -35 |
| Strategy.StopMovesExactly | src/straightedge/strategy.py:92-122 | some run of passes still moves the stop if and only if it is above zero and not on the entry price |
| Strategy.BreakevenFreezes | src/straightedge/strategy.py:97-98 | a stop on the entry price, or at or below zero, is never moved again by any run of passes |
| Strategy.BreakevenReached | src/straightedge/strategy.py:105-113 | a favourable move past breakeven and short of the trail puts the stop exactly there |
| Strategy.RepriceKeepsDistances | src/straightedge/models.py:412-434 | re-pricing keeps stop and target distances to within one grid step, on whichever side they are, and never turns stop, entry and target around |
| Strategy.RepriceMovesAll | src/straightedge/models.py:412-434 | a re-priced signal stands at the new entry, its levels moved by as much, and is otherwise the same; a flat one is untouched |
| Market.RoundIsProjection | src/straightedge/models.py:164-165 | rounding lands on the grid and leaves a price unchanged if and only if it is on it |
| Market.RoundMonotone | src/straightedge/models.py:164-165 | rounding keeps the order of prices |
| Market.RoundIsNear | src/straightedge/models.py:164-165 | rounding moves a price by at most half a grid step |
| Market.TiesGoToEven | src/straightedge/models.py:164-165 | a price halfway between two grid points goes to the even one |
| Flatten.Engine.Flatten | src/straightedge/engine.py:258-405 | the engine ends halted if and only if every record before the halt could be written, the clearing of a pending order first; then every listed order and position was attempted once, and the report is exactly the specified one with an empty seen set |
| Flatten.Engine.CancelAll | src/straightedge/engine.py:287-305 | every order is tried, unless the record of a failed cancel cannot be written |
| Flatten.Engine.ClearPending | src/straightedge/engine.py:277-283 | the desk's pending is gone, and an unwritable record of that ends the sweep |
| Flatten.Engine.CloseOne | src/straightedge/engine.py:437-472 | one close with its records: a fill counts only if it was recorded, and the ticket is marked whenever the close answered |
| Flatten.Engine.CloseAll | src/straightedge/engine.py:307-343 | every position is tried; confirmed, short-filled and answered tickets are exactly those the venue and the journal made so |
| Flatten.Engine.Verify | src/straightedge/engine.py:349-405 | the report is given exactly when the records of the last reads and of the report can be written |
| Flatten.Engine.DetectFills | src/straightedge/engine.py:1071-1099 | what is announced is the difference to the last scan without this step's own opens and closes |
| Flatten.Engine.SweepThenScan | src/straightedge/engine.py:372-373 | after a sweep a survivor still on the book is announced again if and only if it was not opened in this very step |
| Flatten.MeasuredIdentity | src/straightedge/engine.py:349-387 | measured: confirmed + elsewhere + requested survivors = requested + confirmed still open |
| Flatten.IdentityExactly | src/straightedge/models.py:286-338 | the documented identity holds if and only if nothing confirmed is still open, or, unmeasured, nothing was confirmed |
| Flatten.CompleteExactly | src/straightedge/models.py:329-338 | complete if and only if measured and no position or order survives; the count clauses follow |
| Flatten.SurvivorsOnlyGrow | src/straightedge/engine.py:353-371 | every instrument can only add a survivor, and an unmeasured sweep keeps every requested ticket as one |
| Flatten.ShortFillSurvivesExactly | src/straightedge/engine.py:317-343 | a short fill is a survivor if and only if its close was recorded, or the last read shows it, or the sweep was not measured |
| Flatten.HaltsExactly | src/straightedge/engine.py:277-347 | the sweep gets to its halt if and only if no record on its way is lost, of those that its answers call for |
| Flatten.ReportExactly | src/straightedge/engine.py:349-387 | every figure and every survivor of the report, in what the venue and the journal answered |
| Flatten.ReportsExactly | src/straightedge/engine.py:389-405 | the report comes if and only if the failed reads, the report and the alarm could be recorded |
| PairResolver.ResolvePair | src/straightedge/risk.py:99-130 | the nested loops return a split into two table codes that is best among all valid splits, and none if and only if none is valid |
| PairResolver.CodeLengths | src/straightedge/risk.py:95-96 | exactly the lengths of the table's codes, ascending |
| PairResolver.BestQuote | src/straightedge/risk.py:113-128 | the inner loop covers every split with this base length |
| PairResolver.ResolutionUnique | src/straightedge/risk.py:99-130 | the rule leaves no choice: two best splits are the same |
| PairResolver.ResolvesExactly | src/straightedge/risk.py:99-130 | a pair is the answer if and only if both are codes, they start the symbol one after the other, and no other such pair uses fewer letters, or as many with a longer base |
| PairResolver.SuffixIrrelevant | src/straightedge/risk.py:99-130 | appending any suffix to a resolving symbol never changes the answer |
| PairResolver.PrefixFreeUnambiguous | src/straightedge/risk.py:99-130 | in a prefix-free table at most one split is valid |
| PairResolver.ThreeAndThreeKept | src/straightedge/risk.py:99-130 | a three-and-three split stays the answer in any table whose codes have at least three letters |
| CodecRoundTrip.RequestRoundTripExactly | src/straightedge/broker/mt4_live.py:142-207 | a request with any values round trips, every key accounted for and each reading what its own value reads alone, if and only if no text in it has a line break left inside it after sanitising and trimming |
| CodecRoundTrip.CoercedTextSurvivesExactly | src/straightedge/broker/mt4_live.py:197-207 | a text under a key that is not a text field comes back as itself if and only if it is no truth word and nothing int() reads, or with a dot nothing float() reads |
| CodecRoundTrip.ClientKeySurvivesExactly | src/straightedge/broker/mt4_live.py:995-1028 | the client key of a send reads back as itself if and only if it has a letter; of digits only it reads as a number |
| CodecRoundTrip.LeadingZeroIsLost | src/straightedge/broker/mt4_live.py:197-207 | two such keys of digits that differ by a zero in front read as the same number |
| CodecRoundTrip.IntSurvives | src/straightedge/broker/mt4_live.py:142-207 | every integer of any size comes back exactly |
| CodecRoundTrip.BoolSurvives | src/straightedge/broker/mt4_live.py:142-207 | every boolean comes back exactly |
| CodecRoundTrip.FloatSurvives | src/straightedge/broker/mt4_live.py:142-207 | every number printed with a dot comes back with all its digits |
| CodecRoundTrip.ExponentReads | src/straightedge/broker/mt4_live.py:197-207 | a decimal with an exponent reads as its value scaled by that power of ten |
| CodecRoundTrip.BareExponentIsText | src/straightedge/broker/mt4_live.py:197-207 | one printed with an exponent and no dot comes back as a text |
| CodecRoundTrip.TextSurvives | src/straightedge/broker/mt4_live.py:142-195 | a text field comes back as its sanitised text with trailing blanks cut |
| CodecRoundTrip.PlainTextExactly | src/straightedge/broker/mt4_live.py:142-144 | a text travels unchanged if and only if it is ASCII without CR, LF or bar |
| CodecRoundTrip.SanitisedExactly | src/straightedge/broker/mt4_live.py:142-144 | a line end becomes a blank, a bar a slash, anything outside ASCII a question mark |
| CodecRoundTrip.IntRoundTrip | src/straightedge/broker/mt4_live.py:197-207 | reading the decimal text of an integer gives the integer |
| CodecRoundTrip.PrintableIsSendable | src/straightedge/broker/mt4_live.py:142-144 | printable text, CR, LF and anything outside ASCII leave no line break and no bar behind |
| CodecRoundTrip.VerticalTabAddsKey | src/straightedge/broker/mt4_live.py:142-195 | in any encoded request a vertical tab passes the sanitiser and makes the text after it another key |
| CodecRoundTrip.RowRoundTrip | src/straightedge/broker/mt4_live.py:252-276 | fields without a bar, joined with bars, split back into the same fields |
| CodecRoundTrip.RowFieldsSurvive | src/straightedge/broker/mt4_live.py:252-276 | each field of a row reads back under its own name: a text field as sent, any other as its text reads alone, an empty one as zero |
| CodecRoundTrip.MissingFields | src/straightedge/broker/mt4_live.py:252-276 | what a row does not hold reads as an empty text or as zero |
| CodecLines.EntryReads | src/straightedge/broker/mt4_live.py:183-195 | an entry whose trimmed text has no break sets its own key and no other, whatever blank lines its end adds |
| CodecLines.AllReadBackUnbroken | src/straightedge/broker/mt4_live.py:183-207 | entries that all read back have no break inside any trimmed text, numbers behind a break included |
| CodecLines.LinesOfText | src/straightedge/broker/mt4_live.py:166-172 | the lines of a body are the lines of its entries one after the other |
| CodecLines.DecodedUnbroken | src/straightedge/broker/mt4_live.py:183-195 | whatever the body, no decoded text contains a line break |
| Codec.Encode | src/straightedge/broker/mt4_live.py:147-172 | the loops give the specified body |
| Codec.Decode | src/straightedge/broker/mt4_live.py:183-195 | the loop gives the specified map, later lines winning |
| Codec.ParseRow | src/straightedge/broker/mt4_live.py:252-276 | exactly the named fields, each from its own place, a missing number as zero |

## Left out

- Telegram, the language model, HTTP, the network mailbox and everything under `agent/`: clients and plumbing.
- The MT5 adapter and the Expert's own code: the Expert is only the environment that claims, executes and answers.
- File calls, fsync, permissions, retries and clocks: a file is a cell that is replaced as a whole or not, a deadline is a step that gives up.
- IEEE floats: money, prices and numbers on the wire are exact reals, and not-a-number is an absent value.
- A snapshot file that is not UTF-8: the exception escapes and the process does not start.
- Configuration, the command line, chat texts, redaction, the watchdog, history loading and synthetic bars.
- The strategy's entry signal: it only branches on the indicator values that are modelled.
- A journal line cut exactly before its newline, and numeric strings in records the desk never wrote.
- A close sent by the desk has no client key; the protocol follows only keyed sends, so the close leg of a reverse is an answer of the outside.
- The currency table, upper-casing (in the paper broker too) and the extraction of letters from a symbol: the resolver takes both as inputs. Trading hours are an input of the gate.
- Wording and deviation texts in refusals, broker comments, and the cached current price and profit of a position.
- The caller-keyed `exchange` of the bridge and its shim: one bridge is driven through `call`.
- A dictionary of positions is a sequence in insertion order and a position is a value: a caller that holds a live reference to it is not modelled.
- A close request without a volume: the volume is always given.
- A non-positive period of Wilder smoothing, which the source divides by.
- Digits outside ASCII, which `int()` also reads.
- Sizing.NeverRoundedUp: one direction only; NeverRoundedUpExactly is the equivalence, against the whole steps.
