# Execution control plane: a verified model

The execution control plane turns strategy intents into broker orders. An intent is deduplicated, checked against
the risk rules, written step by step to a hash-chained append-only ledger, and sent to a broker; fills come back
through an order state machine; after a crash the state is rebuilt from the ledger. Most of the program holds one half
of a pair that has to agree with another half, and that agreement is what is proved here:

* **Orders** (`OrderStateMachine`, `OrderTransitions`): the step function, as a table and over runs of updates.
* **Ledger text** (`Utf8`, `Json`, `JsonSpelling`, `JsonGrammar`, `JsonGrammarRead`, `JsonRoundTrip`, `JsonCanonical`,
  `JsonInMemory`, `JsonPrefix`, `JsonParser`, `Decimal`): the integer-only JSON of ledger lines (sections 2 and 7 of
  RFC 8259, UTF-8 as in section 3 of RFC 3629), as a grammar, as a specification that accepts exactly that grammar, and as
  the parser and printer loops that meet it.
* **Ledger files** (`LedgerRecord`, `Ledger`, `LedgerAppend`, `LedgerChain`, `LedgerFile`, `LedgerRepair`,
  `LedgerOversized`): scanning, appending with partial writes, the hash chain, and repair, on bytes.
* **Risk** (`Risk`, `RiskRules`, `RateLimit`): 64-bit rules against a table of rules over exact integers; the rate limit
  over runs, restarts and attempts at which a process ends.
* **Paper broker** (`PaperBroker`, `PaperFills`, `PaperAnswers`, `PaperAccounting`, `PaperProgram`): what it answers, when
  it fills, and the cash, positions, equity and peak that its fills must add up to.
* **Replay** (`Replay`, `ReplayHistory`, `ReplayRecords`, `ReplayOrders`, `ReplayBooks`, `ReplayProgram`): what a ledger of
  typed events reconstructs, by the kinds of its events and as the program computes it.
* **Session** (`SessionWorld`, `OrderSimilarity`, `SessionAgreement`, `Mirror`, `Session`, `SessionRecords`,
  `SessionSafety`, `SessionRuns`, `SessionStart`): the session as a class over a durable log, with a crash possible at
  every effect.
* **Broker and session together** (`Capture`, `CaptureExact`, `Inventory`, `Overselling`, `Reconciliation`, `Desk`,
  `DeskRuns`, `Recovery`, `EventDelivery`, `Shutdown`).

`Base` holds the machine integers and `Option`/`Result`. Code that changes state is a class or a method with loops,
proved against specification functions; properties of whole runs are lemmas about those functions, or postconditions
of methods that run the class.

## What the proofs show about the code

Places where the code does less than its comments, tests or a reader would expect. Each has a lemma with the exact
condition or the failing family.

* `append` accepts an event of 4094 to 4096 members; the record adds three, so the scan then calls the file corrupt
  (`LedgerAppend.AppendedFileScans`). The field rules bound neither type nor size of a safety stop's reason, so a stop
  whose reason is a list of 4087 to 4089 entries is such an event (`LedgerOversized.AppendedStopIsCorrupt`). An
  append that grows the file past a segment is written and then unsafe.
* A record line cut exactly before its newline is corrupt, and one cut inside a character is invalid UTF-8; neither is
  a truncated tail, so neither can be repaired (`LedgerAppend.TornAppendScans`).
* A value that nests up to the depth limit in an empty list is accepted whole, while one of its prefixes is refused
  for its depth instead of being incomplete (`JsonPrefix.CutAtTheDepthLimit`; the exact condition is
  `JsonPrefix.EveryPrefixIsIncompleteIffRoomy`).
* A repair record can make the repaired file longer than a segment, which the next scan refuses
  (`LedgerRepair.RepairedLedgerScans`).
* The outcome of a request is written even when its order refuses it, and the ledger that holds it no longer replays
  (`SessionAgreement.RefusedOutcomeEndsReplay`); an order that fills while its modification is at the broker is such a
  case (`SessionAgreement.FillOvertakesModification`).
* A conflicting repetition of an intent writes a second decision, which replay refuses when it differs from the first
  (`SessionAgreement.DecisionAgrees`). A route recorded for an order must be the one recorded before
  (`SessionAgreement.MappingAgrees`), so a mutation that names another instrument spoils the ledger even when the rules
  reject it; for a cancellation they never look at the instrument (`Risk.CancelIgnoresInstrument`).
* A position that returns to zero stays in the broker's report, and the snapshot treats a zero position as a reason
  for doubt: no order or modification of any instrument is approved from then on
  (`Inventory.ClosedPositionStopsTrading`, and a run that gets there, `Overselling.ClosingStopsTrading`).
* A safety stop that nobody collects is sent to a reconnecting strategy, which can acknowledge it; the next collection
  then queues it, although it is acknowledged (`EventDelivery.AcknowledgedEventIsQueued`; the exact condition is
  `EventDelivery.CollectIsStaleIff`, and over runs `EventDelivery.RunStaysInOrder`).
* A fill that takes a position out of 64 bits loses the paper broker's session (`DeskRuns.FillLosesSessionIff`); its
  reports are unavailable from then on and no reconciliation succeeds (`DeskRuns.MirrorIsExact`).
* Two sells prepared on one snapshot and submitted one after the other can oversell
  (`Inventory.DecidedTogetherOversell`, with a run in `Overselling.TogetherTheyOversell`); `accept_intent`, which
  prepares and submits at once, cannot.
* A submission whose authority was revoked stops the session without ending the authority of others: one prepared later
  is still sent to the broker, by a session under a stop (`SessionSafety.RevocationLeavesOthers`).
* With the largest observation age an observation received in the future passes: the rule holds then whatever the time of
  receipt (`RiskRules.EvaluationIsTheTable`).
* The gross rule at a limit of 2^64-1 and the sell rule at a position of 2^63-1 pass beyond the exact sum
  (`Risk.GrossRuleIsExact`, `Risk.SellRuleIsExact`).

## Model

| member | source | states |
|---|---|---|
| OrderStateMachine.StepKeepsInvariant | execution/src/order_state_machine.cpp:74-292 | one update keeps the terms of an order valid, never takes a fill back, and reports as its position delta exactly the signed growth of the fill |
| OrderStateMachine.RunFromPrepared | execution/src/order_state_machine.cpp:74-292 | over any run from a prepared order: filled is at most effective and never falls, Filled exactly when they are equal, Acknowledged means nothing filled, a mutation is pending only while working or awaiting reconciliation, and the deltas add up to plus or minus the final fill |
| OrderStateMachine.TerminalRunIsFrozen | execution/src/order_state_machine.cpp:33-36 | a terminal order keeps its state, quantities and price under any further run, and emits no position delta |
| OrderStateMachine.EvidenceIsNeverForgotten | execution/src/order_state_machine.cpp:43-49 | evidence once applied is found under its id after any run |
| OrderStateMachine.LaterDuplicateChangesNothing | execution/src/order_state_machine.cpp:80-90 | a message under an accepted id, inserted anywhere later, changes neither the final order nor the total delta; with other content it is refused as an incident |
| OrderStateMachine.ModifyIsTakenOrUndone | execution/src/order_state_machine.cpp:156-199 | a modification that is requested is taken by an acceptance of the same terms and undone by a rejection |
| OrderStateMachine.CancelIsConfirmed | execution/src/order_state_machine.cpp:201-227 | a requested and confirmed cancellation ends the order with what it had filled |
| OrderStateMachine.RunConcat | execution/src/order_state_machine.cpp:74-292 | a run is the runs of its parts, one after the other, and their deltas add up |
| OrderTransitions.MachineIsTheTable | execution/src/order_state_machine.cpp:74-292 | the machine as a table: for every kind of update, when a new one is taken and what the order is afterwards, submission, fills, changes, cancellations, doubt and reconciliation |
| Utf8.ValidIffEncoded | execution/src/canonical_json.cpp:15-55 | the byte check accepts exactly the encodings of sequences of Unicode scalar values |
| Utf8.CheckUtf8 | execution/src/canonical_json.cpp:15-38 | the scan loop computes that check |
| JsonRoundTrip.ParseInvertsPrint | execution/src/canonical_json.cpp:57-258 | the canonical text of a well-formed value is accepted exactly when the value is within the depth, member and size limits, and then parses back to it |
| JsonRoundTrip.PrintIsInjective | execution/src/canonical_json.cpp:211-258 | equal canonical texts mean equal values |
| JsonRoundTrip.PrintedValueIsPrintable | execution/src/canonical_json.cpp:211-233 | canonical text holds no control character, so no newline |
| JsonCanonical.InsertKeepsOrder | execution/src/canonical_json.cpp:171-191 | inserting a member keeps keys sorted, adds exactly that member, and fails exactly for a key that is there |
| JsonCanonical.AcceptedTextIsCanonicalisable | execution/src/canonical_json.cpp:326-331 | the value of any accepted text is well formed and within the limits, its canonical text is no longer than the text, and parses back to it |
| JsonCanonical.CanonicalIsIdempotent | execution/src/canonical_json.cpp:326-331 | canonicalising twice is canonicalising once, and accepted texts have one canonical text exactly when they have one value |
| JsonPrefix.PrefixIsIncomplete | execution/src/canonical_json.cpp:57-209 | a proper prefix of a canonical text is incomplete exactly when it does not cut a character, and invalid UTF-8 otherwise |
| JsonPrefix.EveryPrefixIsIncompleteIffRoomy | execution/src/canonical_json.cpp:156-209 | no cut at a character boundary is refused for anything else exactly when no empty list of the value sits at a limit |
| JsonPrefix.CutAtTheDepthLimit | execution/src/canonical_json.cpp:192-205 | a value that is accepted whole and has a prefix that is not incomplete |
| JsonInMemory.ValidTextIsWellFormed | execution/src/canonical_json.cpp:234-258 | an in-memory value whose text is valid UTF-8 has valid strings throughout |
| JsonInMemory.BelowLimitsIsRoomy | execution/src/canonical_json.cpp:156-209 | strictly below the depth and member limits every cut is incomplete or cuts a character |
| JsonParser.Parser.String | execution/src/canonical_json.cpp:99-135 | the string loop reads exactly what the specification reads, and leaves the cursor behind it |
| JsonParser.Parser.Unicode | execution/src/canonical_json.cpp:87-115 | an escape, or a surrogate pair of two, is read as specified, which is as `JsonSpelling.PointReads` says |
| JsonParser.Parser.Integer | execution/src/canonical_json.cpp:136-155 | the integer loop accepts canonical integers only |
| JsonParser.Parser.Value | execution/src/canonical_json.cpp:192-205 | the mutable parser reads a value as specified, counting members and depth |
| JsonParser.Parser.Array | execution/src/canonical_json.cpp:156-170 | same for lists |
| JsonParser.Parser.Object | execution/src/canonical_json.cpp:171-191 | same for objects, whose members end up sorted |
| JsonParser.ParseText | execution/src/canonical_json.cpp:60-68 | the whole parse, with the size and UTF-8 checks before it, is the specified one on every input |
| JsonParser.EncodeString | execution/src/canonical_json.cpp:211-233 | the escaping loop appends the specified text |
| JsonParser.Encode | execution/src/canonical_json.cpp:234-258 | the printing loops append the specified text |
| JsonSpelling.PointReads | execution/src/canonical_json.cpp:87-126 | every Unicode scalar value, written as one escape or as the surrogate pair of RFC 8259, in either case, reads as itself |
| JsonSpelling.SpellingIsRead | execution/src/canonical_json.cpp:99-135 | every spelling of a string, with any mixture of plain bytes, two-character escapes and code points, reads as the bytes it stands for |
| JsonSpelling.ReadIsSpelled | execution/src/canonical_json.cpp:99-135 | whatever reads as a string is such a spelling of it |
| JsonGrammarRead.LayoutIsRead | execution/src/canonical_json.cpp:57-209 | every layout of a value within the limits, with any blanks, spellings and order of members, is accepted, and read as the value it stands for, members in key order |
| JsonGrammarRead.AcceptedIsLaid | execution/src/canonical_json.cpp:57-209 | whatever the parser accepts is such a layout, within the limits |
| LedgerRecord.RecordReadsBack | execution/src/execution_ledger.cpp:62-106 | a record within the limits reads back from its line, every field |
| LedgerRecord.BodyDeterminesRecord | execution/src/execution_ledger.cpp:34-49 | the text a record's hash covers determines every covered field |
| LedgerRecord.RecordLimits | execution/src/execution_ledger.cpp:34-49 | a record nests as deep as its event and has three more members |
| LedgerRecord.AcceptedRecordIsWellFormed | execution/src/execution_ledger.cpp:62-106 | what the record parser accepts is valid text throughout |
| Ledger.ScanIsSound | execution/src/execution_ledger.cpp:156-259 | whatever the bytes, the verified prefix is exactly the text of a chain of sequential, linked records with distinct ids |
| Ledger.CleanIffChain | execution/src/execution_ledger.cpp:156-259 | a file is clean exactly when it is the text of such a chain and fits a segment, and the scan returns that chain |
| LedgerFile.ScanOpened | execution/src/execution_ledger.cpp:156-259 | the block-wise scan loop computes the specified verdict, records and prefix |
| LedgerFile.ExecutionLedger.Reopen | execution/src/execution_ledger.cpp:529-560 | opening takes exactly the clean files, with their last sequence and hash |
| LedgerFile.ExecutionLedger.WriteAll | execution/src/execution_ledger.cpp:381-401 | the write loop leaves a prefix of the line in the file and reports its length |
| LedgerFile.ExecutionLedger.Append | execution/src/execution_ledger.cpp:606-672 | an append checks the whole file again, then appends exactly one line, refuses without a write, or leaves the file with a prefix of the line and closed; NotWritten exactly when no byte was written |
| LedgerFile.AppendKeepsStep | execution/src/execution_ledger.cpp:606-672 | after an append the ledger is in step with its file exactly when the event has at most 4093 members and the file fits a segment |
| LedgerAppend.AcceptedEventIsValid | execution/src/execution_ledger.cpp:606-640 | an event whose text is accepted reads back, is valid text and respects the limits |
| LedgerAppend.AppendedFileScans | execution/src/execution_ledger.cpp:606-672 | the scan after an append: the old records and the new one, except for the two families the append lets through |
| LedgerAppend.TornAppendScans | execution/src/execution_ledger.cpp:221-258 | the verdict after every number of bytes of a torn append: clean, truncated with exactly the old records and prefix, invalid UTF-8, missing newline, or clean with one more record |
| LedgerAppend.TornAppendKeepsRecords | execution/src/execution_ledger.cpp:156-259 | whatever the record, a write that stopped short of it leaves the old file as the verified prefix |
| LedgerAppend.EveryCutIsRepairableIffRoomy | execution/src/execution_ledger.cpp:57-61 | for ASCII records: every cut is a truncated tail exactly when no empty list of the record sits at a limit |
| LedgerAppend.SmallRecordIsRoomy | execution/src/execution_ledger.cpp:57-61 | records strictly below the limits are among those |
| LedgerOversized.AppendedStopIsCorrupt | execution/src/execution_ledger.cpp:606-672 | a new ledger takes a safety stop whose reason is a list of 4087 to 4089 entries, and its file is corrupt afterwards |
| LedgerChain.SameHashSameRecord | execution/src/execution_ledger.cpp:186-221 | two accepted records with one hash, anywhere in two chains, are equal or show a collision |
| LedgerChain.LastHashFixesChain | execution/src/execution_ledger.cpp:186-221 | chains of one length with one last hash are equal, or two different texts with one digest are returned |
| LedgerChain.CleanLedgersAreEqual | execution/src/execution_ledger.cpp:186-221 | clean ledgers with equally many records and one last hash are the same bytes, or a collision is returned |
| LedgerRepair.TruncatedPrefixIsClean | execution/src/ledger_repair.cpp:112-150 | the verified prefix of a truncated file is a clean ledger of the same records, so the copy never fails its check |
| LedgerRepair.RepairTellsDamage | execution/src/ledger_repair.cpp:121-137 | the repair record names the request's event, time, session and file, and its numbers read back as the length of the damaged file and of the kept prefix |
| LedgerRepair.RepairSucceedsIff | execution/src/ledger_repair.cpp:70-178 | repair succeeds exactly for a confirmed request on a truncated file with an acceptable, fresh and short repair event |
| LedgerRepair.RepairedLedgerScans | execution/src/ledger_repair.cpp:112-178 | the repaired file is the verified prefix and one repair record; it scans clean with n + 1 records unless it is longer than a segment |
| LedgerRepair.RepairAfterTornAppend | execution/src/ledger_repair.cpp:112-178 | repairing a torn append gives back every record of the ledger before it, then the repair |
| LedgerRepair.RepairTruncatedLedger | execution/src/ledger_repair.cpp:112-178 | the read, copy and append loops compute that repair |
| Risk.ProductOverflowsIff | execution/src/risk.cpp:74-79 | the unsigned test reports exactly the products past 64 bits |
| Risk.SignedProductOverflowsIff | execution/src/risk.cpp:80-94 | the signed test is exact for every combination of signs |
| Risk.WorkingSumIsExact | execution/src/risk.cpp:383-400 | the running position overflows exactly when a partial sum leaves the range, and is otherwise the exact sum |
| Risk.PositionRuleIsExact | execution/src/risk.cpp:383-410 | the position rule passes exactly when no partial sum leaves the range and the exact net position is within the limit, the target of a modification left out |
| Risk.WorkingGrossIsExact | execution/src/risk.cpp:435-450 | the saturating premium sum is the exact one, or past 64 bits |
| Risk.GrossRuleIsExact | execution/src/risk.cpp:435-455 | the gross rule passes exactly when the unbounded sum of current, working and new premium is within the limit, but for the largest limit |
| Risk.SellRuleIsExact | execution/src/risk.cpp:411-434 | the sell rule passes exactly when the position covers what is promised and asked, but for the largest position |
| Risk.TimeRuleIsExact | execution/src/risk.cpp:306-316 | the saturated latest creation time makes no difference |
| Risk.RecentCounts | execution/src/risk.cpp:366-375 | the rate rule counts exactly the times in the window that ends now |
| Risk.GreekRuleIsExact | execution/src/risk.cpp:457-483 | a greek rule passes exactly for a fresh snapshot whose exact projection fits and is within the limit |
| Risk.ApprovedIff | execution/src/risk.cpp:230-510 | an intent is approved exactly when every rule passes; a refusal names the first rule that failed and records none after it |
| RiskRules.EvaluationIsTheTable | execution/src/risk.cpp:230-497 | the engine checks exactly a table of rules, in its order, each of them stated on the fields of intent, snapshot and configuration in exact arithmetic; it records each with its verdict up to the first that fails, which is the rejection, and approves exactly when all hold |
| RiskRules.ApprovalIsAuthorized | execution/src/risk.cpp:257-316 | an approved order or modification was asked of a session that is ready, not stopped and not in doubt, on a verified route of its instrument, in time, and for an open target of the same instrument and side |
| RiskRules.ApprovalIsInformed | execution/src/risk.cpp:317-338 | it was decided on a fresh, healthy observation of its instrument, with the broker up |
| RiskRules.ApprovalIsSized | execution/src/risk.cpp:340-357 | its quantity and price are multiples of lot and tick and within the maximum |
| RiskRules.ApprovalIsSolvent | execution/src/risk.cpp:484-495 | daily loss and drawdown were known, recent, and each within its own maximum |
| RiskRules.ApprovalIsSafe | execution/src/risk.cpp:347-455 | what approval guarantees, field by field and in exact arithmetic: the rate in the window, the number of open orders, position, premium and inventory after the order, daily loss and drawdown |
| Risk.CancelIgnoresInstrument | execution/src/risk.cpp:257-270 | a cancellation's verdict is the same for every instrument it may name |
| Risk.ExposureChecked | execution/src/risk.cpp:366-455 | the loops over working orders and order times give the specified exposure verdicts |
| RateLimit.AttemptIsLimited | execution/src/execution_session.cpp:894-905 | an attempt approved under the rule leaves every window limited |
| RateLimit.StepIsGood | execution/src/execution_session.cpp:317-325 | a preparation, with pruning, or a restart, which rebuilds from the ledger, keeps every window of the attempts in the ledger limited, also when the process ends at the attempt |
| RateLimit.EveryWindowIsLimited | execution/src/risk.cpp:366-375 | over any run with a clock that does not run backwards, any restarts and any failed attempts, no window of the configured length holds more place and modify attempts of the ledger than configured |
| PaperBroker.PaperIdIsInjective | execution/src/paper_broker.cpp:76-81 | different correlation numbers give different ids |
| PaperProgram.Broker.Place | execution/src/paper_broker.cpp:82-109 | placing, on the broker's fields, is the specified step, and keeps the broker's invariant |
| PaperProgram.Broker.Modify | execution/src/paper_broker.cpp:111-132 | same for modifying |
| PaperProgram.Broker.Cancel | execution/src/paper_broker.cpp:134-154 | same for cancelling |
| PaperProgram.Broker.FillOrder | execution/src/paper_broker.cpp:156-186 | same for a fill with its checked cash and position; what it adds to the history of sampled equities is the equity after the fill, if there is one |
| PaperProgram.Broker.EquityPaise | execution/src/paper_broker.cpp:188-210 | the equity loop, which gives up on an overflow or a missing mark |
| PaperProgram.Broker.UpdatePeakEquity | execution/src/paper_broker.cpp:212-215 | one sample: the peak rises to the equity and the history grows by it, when there is one |
| PaperProgram.Broker.AcceptObservation | execution/src/paper_broker.cpp:217-288 | the loop over orders makes the specified step, which fills exactly what `PaperFills.FillsAreReached` says, and samples after each fill and at the end |
| PaperProgram.Broker.ApplyScripted | execution/src/paper_broker.cpp:290-320 | scripted events in turn, up to one that throws, with the samples of their fills |
| PaperProgram.Broker.QueryPnl | execution/src/paper_broker.cpp:350-376 | the report is the specified one |
| PaperFills.FillsAreReached | execution/src/paper_broker.cpp:217-288 | an observation fills exactly the orders that it reaches: open, of its instrument, submitted before it, past their first look, with volume traded since and an ask, bid or trade at the limit or better; each whole and at its limit price, in order; every other field of every order, and the marks, are as stated |
| PaperAnswers.PlacementIsAnswered | execution/src/paper_broker.cpp:82-109 | a placement is acknowledged exactly when the broker is up, the request is complete and its id new, and is then added unfilled |
| PaperAnswers.ModificationIsAnswered | execution/src/paper_broker.cpp:111-132 | a modification is acknowledged exactly when the broker is up and the order it names is open and not filled beyond it, and changes nothing else |
| PaperAnswers.CancellationIsAnswered | execution/src/paper_broker.cpp:134-154 | a cancellation is acknowledged exactly when the broker is up and the order it names is open or cancelled already |
| PaperAnswers.ScriptMovesOrder | execution/src/paper_broker.cpp:290-320 | a scripted event rejects its order, leaves it undecided or fills it as far as it says, and throws exactly when that is more than the order's quantity |
| PaperAccounting.HighestIsMaximum | execution/src/paper_broker.cpp:212-215 | the highest of a history is at least zero and every sample, and is one of them |
| PaperAccounting.EquityIsExact | execution/src/paper_broker.cpp:188-210 | checked equity, when there is one, is the unbounded sum of cash and marked positions |
| PaperAccounting.EquityIff | execution/src/paper_broker.cpp:188-210 | equity can be computed exactly when every open position has a price and a value in range, and no sum on the way leaves 64 bits |
| PaperAccounting.PnlIsExact | execution/src/paper_broker.cpp:350-376 | a reported loss is max(0, -E) and a reported drawdown P - E, for the exact equity E and the peak P |
| PaperAccounting.ReportedIff | execution/src/paper_broker.cpp:350-376 | a report is given exactly when the broker is up, has observed something and can compute its equity; its time is that of the oldest mark of an open position, or of the latest observation |
| PaperAccounting.FillKeepsBooks | execution/src/paper_broker.cpp:156-186 | a fill moves cash and position by exactly what it adds to the sums over all fills |
| PaperAccounting.RunKeepsBooks | execution/src/paper_broker.cpp:82-320 | every operation keeps cash, positions and filled quantities equal to the sums over the fills |
| PaperAccounting.PeakIsHighestSample | execution/src/paper_broker.cpp:156-320 | the peak after any run is the highest of the peak before it and every equity sampled, one after each fill and one at the end of each observation |
| PaperAccounting.ReachablePnlIsExact | execution/src/paper_broker.cpp:350-376 | whatever a new broker has been through: the peak is the highest of zero and every equity it sampled, loss and drawdown are those of the cash of all fills plus marked value against that peak, and positions are the sums of fills |
| ReplayBooks.RecordKeepsBooks | execution/src/ledger_replay.cpp:119-275 | one replayed record keeps positions equal to the sums of fills, and orders reachable |
| ReplayBooks.ReplayConserves | execution/src/ledger_replay.cpp:278-285 | whatever ledger replays, every order is one its state machine can reach, every instrument's position is the sum of its orders' signed fills, and every route's too when orders were routed before they were submitted |
| ReplayProgram.Reconstruction.Record | execution/src/ledger_replay.cpp:119-275 | replaying a record in place gives the specified state or the specified error, whose meaning by the kinds of events is in the rows of `ReplayHistory`, `ReplayRecords` and `ReplayOrders` |
| ReplayProgram.Reconstruction.RecordBrokerSource | execution/src/ledger_replay.cpp:21-36 | a source is taken unless it contradicts a fingerprint or its number is not new |
| ReplayProgram.Reconstruct | execution/src/ledger_replay.cpp:278-285 | the loop over records reconstructs the specified state |
| ReplayHistory.LedgerIsRemembered | execution/src/ledger_replay.cpp:44-54 | by the kinds of events alone: an intent is known exactly when it was received; what became of it is what the last event that told it something says, and it is ambiguous exactly when that was an ambiguous submission, a refused cancellation or a demand for reconciliation; a stop, the phase and the need to reconcile are those the events leave |
| ReplayHistory.DoubtIsRequired | execution/src/ledger_replay.cpp:207-262 | reconciliation is required as long as any intent is in doubt or a demand for all is outstanding |
| ReplayRecords.LedgerIsOnRecord | execution/src/ledger_replay.cpp:21-98 | of a ledger that replays, every intent came with one text and one decision, its outcome is its first answer, every order has one route, and the broker's updates came in the order of their numbers, each with one content |
| ReplayOrders.RecordMovesOrder | execution/src/ledger_replay.cpp:150-259 | a record moves its order as its kind says, to what its fields say, and no other; a submission starts a new order of its terms |
| OrderSimilarity.SimilarUnderUpdate | execution/src/order_state_machine.cpp:74-292 | a broker's update has the same verdict and delta on two orders that differ in the ids of requests only, and leaves them so |
| OrderSimilarity.SimilarUnderRequest | execution/src/execution_session.cpp:879-885 | a request under the live id on one side and the recorded id on the other does the same to both |
| SessionAgreement.ReceivedAgrees | execution/src/execution_session.cpp:740-775 | a received intent keeps live state and replay in agreement |
| SessionAgreement.MappingAgrees | execution/src/ledger_replay.cpp:133-145 | replay takes a route exactly when none or the same is recorded for the order, and agreement is kept |
| SessionAgreement.DecisionAgrees | execution/src/ledger_replay.cpp:55-65 | replay takes a decision exactly when none or the same is recorded for the intent, and agreement is kept |
| SessionAgreement.SubmissionAgrees | execution/src/execution_session.cpp:841-926 | a submitted order is the same live and replayed |
| SessionAgreement.RequestAgrees | execution/src/execution_session.cpp:841-926 | a modification or cancellation request that the live order takes is taken by replay, with the same effect |
| SessionAgreement.BrokerEventAgrees | execution/src/ledger_replay.cpp:196-240 | replay takes an outcome or update that the live order took exactly when its source fits and no position leaves the range, and then orders, positions and sequence agree |
| SessionAgreement.RestartAgrees | execution/src/execution_session.cpp:251-326 | a session started from the ledger of a session in agreement is in agreement |
| SessionAgreement.RefusedOutcomeEndsReplay | execution/src/execution_session.cpp:1052-1066 | the event of an outcome that the live order refuses is refused by replay |
| SessionAgreement.FillOvertakesModification | execution/src/order_state_machine.cpp:121-189 | an order that fills while its modification is out refuses the acceptance |
| SessionWorld.ReplayKnowsReceived | execution/src/idempotency_store.cpp:29-35 | a replayed ledger knows every intent it received |
| SessionWorld.ReplayCountsAttempts | execution/src/ledger_replay.cpp:150-195 | the attempt times of a replayed state are the times of the place and modify attempts in the ledger, in order |
| SessionWorld.World.Append | execution/src/execution_session.cpp:163-171 | an append happens, is refused, breaks the ledger with or without its record, or ends the process before or after it; in a healthy world it happens |
| SessionWorld.World.CallBroker | execution/src/execution_session.cpp:965-984 | a broker call is made only when it was written ahead, is its intent's first, and was permitted by what the session was when it decided; the log of calls then stays orderly |
| Session.ExecutionSession.constructor | execution/src/execution_session.cpp:223-326 | a new session starts with the state its ledger replays to, no authority, the attempts of the current window and a strategy that its ledger names, if any; an intent has a result again exactly when its decision is recorded with an answer or a refusal; a correlation conflict is noted exactly when the ledger names two strategies or holds an attempt later than now |
| Session.ExecutionSession.DurableEvent | execution/src/execution_session.cpp:348-362 | an event is durable, or the session is stopped and its authority revoked |
| Session.ExecutionSession.ForceSafetyStop | execution/src/execution_session.cpp:364-377 | authority is revoked and at most a safety stop is written |
| Session.ExecutionSession.Check | execution/src/idempotency_store.cpp:36-53 | the standing of an intent id: new, duplicate, conflicting, or the store has stopped |
| Session.ExecutionSession.PrepareIntent | execution/src/execution_session.cpp:708-933 | a ticket is handed out only for a new intent of this session and its strategy, and but for a cancellation only by a session that is ready, under no stop and with no reconciliation due, on reports that leave no doubt; the rules approved it under unchanged authority; an approved intent whose order takes its attempt gets a ticket in a faultless session; the rate rule moves with the attempts of the ledger; a faultless session stays so when the intent fits the state it finds |
| Session.ExecutionSession.SubmitPrepared | execution/src/execution_session.cpp:935-1099 | a ticket is used at most once; under the authority that prepared it the broker is called unless the process ends; after any change of authority there is no call and the session stops; a faultless session stays so when the answer is one the order takes |
| Session.ExecutionSession.RecordOutcome | execution/src/execution_session.cpp:985-1099 | the order, the mirror and the intent advance exactly when the outcome is clear, taken and durable; otherwise the intent is ambiguous, nothing advances and the session stops; a faultless session stays so when the answer fits |
| Session.ExecutionSession.EnqueueUpdate | execution/src/execution_session.cpp:1110-1135 | an update is queued, dropped as a repetition, or stops the session |
| Session.ExecutionSession.DrainUpdates | execution/src/execution_session.cpp:1137-1287 | queued updates are taken in order up to one that fails; when none does, the live state is what all of them lead to; a faultless session stays so when each fits the state that those before it lead to |
| Session.ExecutionSession.TakeUpdate | execution/src/execution_session.cpp:1137-1287 | an update is taken only with a later sequence, for an order, intent and strategy that belong together; it then moves the order, the positions, the route positions and the mirror by one step of the order machine, after its event is durable; any other stops the session; one that is expected and fits a faultless session is taken |
| SessionRecords.AnswerIsRecorded | execution/src/execution_session.cpp:985-1018 | an answer counts as an acknowledgement, modification, cancellation or refusal exactly when it says so in full, and as ambiguous otherwise |
| SessionRecords.AnswerIsMirrored | execution/src/execution_session.cpp:1072-1091 | a recorded answer adds the order to the mirror, changes its terms or cancels it, and a refusal does nothing |
| SessionRecords.UpdateIsRecorded | execution/src/execution_session.cpp:1177-1240 | an update is recorded exactly when it holds what its kind needs, as the event of its kind |
| SessionRecords.UpdateMovesOrder | execution/src/execution_session.cpp:1162-1168 | an update that an order takes moves it as its kind says, to what the update's own fields say |
| Session.ExecutionSession.Preflight | execution/src/execution_session.cpp:383-411 | a first start is refused when the ledger asks for a stop or reconciliation or has a correlation conflict, or the broker disagrees; in a healthy process it succeeds otherwise |
| Session.ExecutionSession.Activate | execution/src/execution_session.cpp:413-445 | a session becomes ready only when started, observed and not stopped, and then under new authority |
| Session.ExecutionSession.Reconnect | execution/src/execution_session.cpp:1293-1322 | a stop is cleared only after exact agreement with the broker, under new authority |
| Session.ExecutionSession.BeginStop | execution/src/execution_session.cpp:1324-1340 | shutdown revokes the authority of every prepared submission |
| SessionSafety.ApprovedBySession | execution/src/execution_session.cpp:540-563 | what the session's own fields and the broker's reports must have been when the rules approved an order or modification, whose approval a ticket needs |
| SessionSafety.ApprovedWithinLimits | execution/src/execution_session.cpp:540-700 | and the limits that it then keeps, on the session's order times and the reported positions, orders and losses |
| SessionSafety.RevocationLeavesOthers | execution/src/execution_session.cpp:947-956 | a submission whose authority was revoked stops the session, and another prepared later is still submitted |
| SessionRuns.AcceptIntent | execution/src/execution_session.cpp:1101-1103 | at most one broker call, for this intent, and none for an intent already known; a faultless session stays so when intent and answer fit the state found |
| SessionRuns.Perform | execution/src/execution_session.cpp:708-1340 | a faultless session that performs a command which fits the state it finds is faultless afterwards: its ledger replays, and its orders, positions, route positions and last sequence are what the ledger replays to; the attempts move under the rate rule whatever happens |
| SessionRuns.Life | execution/src/execution_session.cpp:223-1340 | over any commands, failing writes, crashes and restarts from an empty ledger: every broker call had its chain of events durable and was made by the authority that prepared it; that session was the intent's own and, but for a cancellation, ready, under no stop and with no reconciliation due when it decided, and ready when it called; no intent was called for twice; with a clock that does not run backwards the attempts recorded in the ledger keep the rate limit, those at which a process ended included; while nothing fails and each command fits the state it finds, the ledger replays, to the live state |
| SessionRuns.PlacementFits | execution/src/execution_session.cpp:985-1066 | accepting a placement fits whenever nothing is known of the intent and its order and the broker takes or refuses it under a new id |
| SessionRuns.RepairAsksForReconciliation | execution/src/ledger_replay.cpp:270-274 | a repaired ledger replays to the prefix's state with global reconciliation required |
| SessionRuns.StartRepaired | execution/src/execution_session.cpp:386-391 | a session over a repaired ledger does not start, whatever the broker shows |
| SessionStart.StartsIff | execution/src/execution_session.cpp:383-411 | a process that finds a ledger starts to trade exactly when its events, the broker and the routes give no reason against it |
| SessionStart.DoubtForbids | execution/src/ledger_replay.cpp:223-229 | a ledger that leaves an intent in doubt is such a reason |
| Capture.CapturePositions | execution/src/execution_session.cpp:565-628 | the loop over reported positions gives the specified view |
| Capture.CaptureOrders | execution/src/execution_session.cpp:632-677 | the loop over reported orders gives the specified view |
| CaptureExact.PositionsAreExact | execution/src/execution_session.cpp:565-628 | the positions count as the broker's word exactly when each is open, on the route of its instrument and the only one of it; the snapshot then shows what is held, and the sum of the sizes at their highest fresh prices exactly when all have one |
| CaptureExact.OrdersAreExact | execution/src/execution_session.cpp:632-677 | the orders raise no doubt exactly when each is one the broker may report under an id of its own and the sells fit; the snapshot then holds exactly the open ones, the sells left under the token, and the target |
| CaptureExact.SnapshotIsExact | execution/src/execution_session.cpp:540-700 | exactly when the captured snapshot leaves no doubt, and every field of the broker's that it then shows |
| Inventory.InventoryIsSeen | execution/src/execution_session.cpp:565-677 | without doubt, the snapshot's token position, working sells and target are the broker's |
| Inventory.ApprovedIsCovered | execution/src/risk.cpp:411-434 | an approved order or modification of a sell is covered by the position beyond every other working sell |
| Inventory.AcceptIsSafe | execution/src/execution_session.cpp:1101-1103 | accepting an intent on the captured snapshot leaves no position short of its working sells |
| Inventory.NeverShortOverRuns | execution/src/risk.cpp:411-434 | from an empty paper broker, over any interleaving of accepted intents, observations and scripted events, every position is at least what its working sells can still sell, hence never negative |
| Inventory.ClosedPositionStopsTrading | execution/src/execution_session.cpp:565-580 | with a closed position at the broker no order and no modification is approved |
| Inventory.DecidedTogetherOversell | execution/src/risk.cpp:411-434 | two sells, each approved on one and the same state, leave a position short exactly when they ask for more than was left together |
| Overselling.TogetherTheyOversell | execution/src/execution_session.cpp:935-1099 | a run from an empty broker to a state on which two sells are both approved, and on to a position of minus one once both are placed and filled |
| Overselling.ClosingStopsTrading | execution/src/execution_session.cpp:565-580 | a run from an empty broker that buys and sells one unit, after which nothing but cancellations is approved |
| Reconciliation.UniqueMap | execution/src/reconciliation.cpp:22-34 | the index of a list, with an incident exactly when a key repeats |
| Reconciliation.CompareMaps | execution/src/reconciliation.cpp:35-47 | no new incident exactly when both maps are equal |
| Reconciliation.SameIndexesSameItems | execution/src/reconciliation.cpp:22-47 | equal indexes of distinct keys hold the same items |
| Reconciliation.Compare | execution/src/reconciliation.cpp:51-181 | no incident exactly when every report is authoritative and usable and the mirror holds exactly the reported orders, fills and positions |
| Reconciliation.AgreementIs | execution/src/reconciliation.cpp:51-181 | that agreement on the fields: every report authoritative with provenance, every order, fill and position on both sides well formed, keyed and without repetition, and both sides holding the same items |
| Desk.FillAgrees | execution/src/execution_session.cpp:1241-1283 | a broker fill and its update leave order, fills and position alike in broker, mirror and live order |
| Desk.PlaceAgrees | execution/src/execution_session.cpp:1052-1078 | a placement, taken or refused, keeps broker, mirror and live orders in agreement |
| Desk.ModifyAgrees | execution/src/execution_session.cpp:1052-1091 | a modification does, taken or refused, a refusal undoing it on the live order |
| Desk.CancelAgrees | execution/src/execution_session.cpp:1052-1091 | a cancellation does, taken or refused |
| DeskRuns.MirrorIsExact | execution/src/reconciliation.cpp:51-181 | in every state of every faultless run over the paper broker, mirror and reports agree exactly, so that the reconciler finds no incident, exactly when the broker's session is not lost |
| DeskRuns.FillLosesSessionIff | execution/src/paper_broker.cpp:156-186 | a fill loses the broker's session exactly when it takes a position out of 64 bits |
| Recovery.SamplePeak | execution/src/executor.cpp:443-470 | the sampling loop of recovery, which gives up where the broker's does |
| Recovery.RecoverAccounts | execution/src/executor.cpp:470-587 | the loop with its pending-mark flag and its cumulative quantities computes the specified accounts, or fails exactly when the specified reading of the ledger does |
| Recovery.RecoveryRefinesBroker | execution/src/executor.cpp:423-587 | for every run of requests and accepted observations in time order whose equities fit, the ledger can be read, and recovery from it yields the live broker's cash, positions, marks and peak |
| EventDelivery.DiscardLeavesTheRest | execution/src/executor.cpp:1392-1396 | discarding from the front of an ascending queue leaves exactly the later items |
| EventDelivery.CollectIsStaleIff | execution/src/executor.cpp:1302-1328 | a collection leaves an acknowledged event in the queue exactly when there was one, or when the acknowledged cursor is past the collected one and the next event is in scope and finds room |
| EventDelivery.StepKeepsOrder | execution/src/executor.cpp:1302-1415 | every call keeps the cursors and the queue in order, and the acknowledged cursor gets past the collected one exactly when the strategy establishes or acknowledges an event not collected yet |
| EventDelivery.RunStaysInOrder | execution/src/executor.cpp:1302-1415 | over any calls the cursors stay in order and the queue holds collected events in order; the acknowledged cursor stays behind the collected one exactly until the strategy moves it ahead, and so long nothing acknowledged waits to be sent |
| EventDelivery.AcknowledgedEventIsQueued | execution/src/executor.cpp:1495-1505 | a safety stop that was sent on reconnection and acknowledged is queued by the next collection |
| EventDelivery.Delivery.CollectAfter | execution/src/executor.cpp:1302-1328 | the collection loop queues the new events in scope in order, as far as there is room, and moves the cursor as specified |
| EventDelivery.Delivery.Reconnect | execution/src/executor.cpp:1363-1383 | a strategy that has seen c events is sent exactly events c+1 to n, in order |
| EventDelivery.Delivery.EstablishCursor | execution/src/executor.cpp:1384-1396 | a cursor is taken exactly between the last acknowledged event and the ledger's length, and nothing at or below it stays queued |
| EventDelivery.Delivery.AcknowledgeThrough | execution/src/executor.cpp:1397-1409 | an acknowledgement is taken exactly between the last one and the last delivered event, and nothing at or below it stays queued |
| EventDelivery.Delivery.MarkDelivered | execution/src/executor.cpp:1410-1415 | delivery moves its cursor forward, within the ledger |
| Shutdown.CancelCancels | execution/src/paper_broker.cpp:134-154 | a confirmed cancellation has cancelled its order, and no cancellation revives another |
| Shutdown.Stopping.CancelOne | execution/src/execution_session.cpp:1360-1520 | one order seen working: its broker call is written ahead and the first of its intent, or it is accounted for as refused |
| Shutdown.Stopping.CancelWorking | execution/src/execution_session.cpp:1351-1539 | at most the rate limit's number of broker calls, each written ahead; completion is reported only when every order seen working is cancelled at the broker and accounted for |

## Left out

- SessionRuns.Life: whether every command fitted is returned by a ghost flag and stated of each command by `SessionRuns.Continue` and `SessionRuns.Perform`; an ambiguous or malformed answer, one the order refuses, and an update that says more than its event records do not fit.
- Session.ExecutionSession.constructor: recorded decisions and outcomes are taken as they are, so that one which does not parse is no correlation conflict here, and the broker's answer inside a rebuilt outcome is left out.
- Inventory.NeverShortOverRuns: positions are assumed to stay within 63 bits while intents are accepted, and instruments and tokens to be one to one, which the instrument resolver enforces.
- DeskRuns.MirrorIsExact: the session side is the mirror and the live orders on values, every request answered at once; what the broker answers after its session is lost is unclear and changes nothing.
- Recovery.RecoveryRefinesBroker: the accounts only; rebuilding the broker's orders, requests and baselines is not modelled.
- Reconciliation.Compare: the syntax of identifiers and the check against the set of known instruments are left out.
- RiskRules.EvaluationIsTheTable: the rules and their verdicts; the figures that an audit records beside each verdict are computed as in the code, and no law states them.
- Risk.GreekRuleIsExact: source and provenance of a greek snapshot are one flag.
- Shutdown.Stopping.CancelWorking: the route, the snapshot, the query's authority, the deadline and the stage acknowledgements of each order are parameters; the reconciliation after it is left out, and shutdown is no command of `SessionRuns.Life`.
- SessionRuns.RepairAsksForReconciliation: repair is proved on the bytes of a file and on typed events; that the repaired bytes decode to those events is not stated.
- Session.ExecutionSession.SubmitPrepared: the broker's answer is a parameter, so the call and its effect on a broker are joined only in `Inventory`, `Desk` and `Shutdown`.
- The ledger of a session is a sequence of typed events; the file of `LedgerFile.ExecutionLedger` is not joined to it, and the payload codec between the two is left out.
- Files: descriptors, locks, permissions, links and synchronisation; kept are the bytes and the durability boundary of an append, whose system calls may write less than asked.
- SHA-256 is any function to 64 hexadecimal digits; instead of assuming that it has no collisions, the chain results return one.
- UUIDs and derived ids are injective texts; UUID and schema checks of event fields are a predicate of the codec.
- Sockets, handshakes, peer identity, sessions of the transport, and frame encoding.
- Threads, stage channels and futures: `accept_intent`, observations, updates and `stop` are atomic steps, with preparation and submission split; a call reads the clock once, an attempt once more.
- The stage coordinator outside shutdown, and the deadlines of requests.
- Incident texts, provenance texts and error codes of broker answers; an update's provenance is one flag.
- Wrap-around of counters after 2^64 steps, and additions of live positions that the code does not check: those leave the operand as it is here, where the language leaves the result open.
- The instrument resolver, the live broker adapter, the parity harness, command lines and build attestation.
- Configuration and contract parsing, field by field.
- The data, research and operations code in Python.
