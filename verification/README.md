# Verified model of the agent-run contour

The repository runs long agent tasks for mobile clients. A background consumer reads an agent
instance's event stream, publishes every block to a bounded Redis ring, bills the run step by step,
and keeps a snapshot row; clients read the run through a broker that replays the ring and then follows
a pub/sub channel; a sweep finalizes runs whose consumer died. This project models that contour and
proves what it promises over every run, interleaving, crash and replay.

One module per concern, all under this directory; `dafny verify dfyconfig.toml` checks everything.

| module | what it holds |
|---|---|
| `Broker`, `BrokerGaps`, `BrokerDedup`, `BrokerEpochs`, `BrokerMarkers`, `BrokerEnds` | a client session: cursor verdict, replay, live classification; gaps, duplicates, rings of several epochs, a reason for every marker, how a session ends |
| `CursorCodec`, `Reconnect` | the `id: <epoch>-<seq>` cursor and chains of reconnecting sessions |
| `Handover` | reader, writer and supervisor around one bounded queue |
| `Utf8`, `JsonText`, `Element`, `Ring` | the ring element as bytes, and the ring itself |
| `Pricing`, `Wallet`, `RunBilling`, `Settlement` | the price of usage, the wallet ledger, one run's money commit by commit, and how it ends |
| `Runs`, `Resume` | the `agent_runs` table, pause, resume and terminal statuses |
| `Lease`, `Sweep` | who drives a run, and when the orphan sweep may end it |
| `Snapshot`, `SseSplitter`, `Launch`, `RateLimit` | the state snapshot, the block splitter, the launch retry loop, the limiter |

State that the source changes in place is a class (`Ring.EventRing`, `Wallet.WalletRow`,
`RunBilling.RunBiller`, `Runs.RunsRepository`, `Lease.LeaseKey`, `Snapshot.Relay`,
`Snapshot.SnapshotsRepository`, `RateLimit.SlidingWindow`) whose methods are tied to functions of the
old state; loops are methods with invariants; protocols are step relations quantified over every trace.

## How to read the main results

* **No silent gap.** `BrokerGaps.SessionsAreSound` says that whatever the ring, the cursor and the
  channel do, what a session queues falls into segments that are orderly, and `NoSilentGap`,
  `NothingTwice` say what orderly means for a client. `Ring.RingIsSound` discharges the assumption on
  the ring for a counter life with one epoch. `BrokerMarkers.NoFalseMarker` and `LosslessIsRelayed` are
  the converse, `BrokerEnds.EndsNormallyIff` the end of a session.
* **Reconnecting.** `Reconnect.ChainIsComplete`, `ChainIsExact` and `AfterLastMarker` compose sessions
  through the printed and parsed cursor; `CursorWasReceived` says what that cursor may claim.
* **Money.** `RunBilling.NeverAboveSeenIff` and `NeverAboveSnapshot` are the crash-anywhere bound,
  `Settlement.CrashSettlesIff` with `RestingStays` the exact settlement after a crash between any two
  commits, `StepsTelescope` and `StepsPlusRemainder` the price law.
* **Lifecycle.** `Resume.ResumeIsSingleFlight`, `FinalStatusIsAbsorbing`, `PausedIsLeftByCasOnly`;
  `Lease.LeaseConverges`; `Sweep.HeartbeatProtectsIff`, `LiveLeaseIsFinalizedIff`, `RestartsAreHarmless`.

## Where the code does less than its documentation

Each is shown by a lemma on a concrete input or family, beside a lemma giving the exact condition under
which the promise does hold, where there is one.

* A `Last-Event-ID` whose tail is a digit that is not decimal (superscript two) or has more than 4300
  digits raises an uncaught error instead of being ignored, and so does `?afterSeq=` instead of
  answering 400: `CursorCodec.SuperscriptHeaderFails`, `HeaderNeverFailsIff`, `SuperscriptQueryFails`,
  `QueryNeverFailsIff`.
* From a counter of 10^14 on, the publish script prints an exponent and readers skip the element:
  `Element.ElementRoundTripIff`.
* A same-epoch counter reset before anything live arrived looks like a replay overlap and the event is
  lost: `BrokerDedup.SameEpochResetIsLost`, `LostIff`, `OneLifeLosesNothing`. A ring of two epochs, or
  of another epoch than the key, gives a session with a silent gap:
  `BrokerEpochs.TwoEpochRingHasSilentGap`, `RenamedCounterHasSilentGap`, `GapFreeIffOneGeneration`.
* A terminal status is committed before the remainder is debited, and the sweep lists active runs only:
  a crash in between, a client stop or a `run.failed` leaves a run unpaid for ever
  (`Settlement.CompletedBeforeRemainderIsNeverSettled`, `StoppedBeforeDebitIsNeverSettled`,
  `FailedBeforeDebitIsNeverSettled`). With reconciliation on and a balance of exactly zero the sweep
  settles nothing (`EmptyWalletIsNotSettled`). Exact condition: `CrashSettlesIff`, `RestingStays`.
* A sweep tick lists and debits in two transactions, so a run stopped in between is charged:
  `Settlement.StoppedWhileListedIsCharged`, `ListedIsChargedIff`. Without reconciliation a finalization
  key used with another amount raises an error the sweep does not catch; the run stays listed and ends
  every later tick before the younger candidates: `ConflictKeepsRunListed`, `ConflictsIff`,
  `ConflictIsForever`, `Sweep.ServedIff`.
* The balance is read before the step debit, so a top-up in between pauses a run with money in the
  wallet: `Settlement.PausedWithMoney`, `ShortfallPauses`.
* A resumed parent is in the sweep's working set, so a paused run is billed again for its shortfall:
  `Settlement.PausedParentIsBilledAgain`, `PausedIsBilledAgainIff`.
* A `run.completed` after the sweep can still charge: `Settlement.LateCompletedCharges`,
  `LateCompletedAddsNothingIff`. A snapshot write that fails is swallowed and the debit goes ahead, and
  a `usage.delta` after `run.completed` is charged on a stale counter: `LostFlushBreaksBound`,
  `LateUsageChargesTwice`, `RunBilling.LostFlushIff`, `StepKeepsBoundIff`, `NeverAboveSeenIff`.
* The invariant "balance equals credits minus debits" breaks when a grant settles debt:
  `Wallet.GrantKeepsIdentityIff`, `ClawbackBreaksIdentity`.
* A parent's late pause after its resume allows a second continuation: `Resume.LatePauseIff`,
  `LatePauseGivesTwoChildren`.
* The settings validator compares the orphan window with the heartbeat setting, but liveness is stamped
  on the lease-renewal tick: `Sweep.ValidatorMissesTheTick`.
* The limiter's window is half open; a closed one may hold twice the limit:
  `RateLimit.ClosedWindowIsTwiceLimit`.
* The block splitter knows LF LF only, so a CR LF stream (which section 9.2 of the HTML Living Standard
  allows) is held back until it closes: `SseSplitter.CrlfStreamIsHeldBack`.

## Model

| member | source | states |
|---|---|---|
| `Broker.ClassifyMessage` | src/app/agent_proxy/broker.py:1065-1242 | the branches on one live message give the ruling that `StepTruthful`, `DroppedIff`, `OneMarkerPerMessage`, `NoFalseMarker` and `PickedUpIsRelayed` pin down |
| `Broker.RecheckKey` | src/app/agent_proxy/broker.py:1263-1320 | adoption and idle reset on the periodic key re-read; at most one marker |
| `Broker.Turn` | src/app/agent_proxy/broker.py:1040-1320 | one loop turn, depth guard included, is one session step, whose ends `TerminalIsLast` and `AbnormalStepIff` pin down |
| `Broker.ClassifyLive` | src/app/agent_proxy/broker.py:980-1320 | the whole live loop queues exactly what the session model queues, and ends normally exactly when it does |
| `Broker.OfferQueues` | src/app/agent_proxy/broker.py:765-787 | the depth guard lets a prefix of a ruling's blocks through and ends the session abnormally when it cuts |
| `Broker.EndedStays` | src/app/agent_proxy/broker.py:1240-1251 | after the end of a session no channel message changes what was queued |
| `BrokerGaps.StepTruthful` | src/app/agent_proxy/broker.py:1065-1242 | every ruling keeps the loop variables truthful about the segment and its order lawful |
| `BrokerGaps.ResetTruthful` | src/app/agent_proxy/broker.py:1090-1137 | a generation change or regression opens a segment whose first block is its marker |
| `BrokerGaps.KeyTruthful` | src/app/agent_proxy/broker.py:1278-1320 | the key re-read keeps the loop variables truthful |
| `BrokerGaps.OfferSound` | src/app/agent_proxy/broker.py:765-787 | a ruling cut short by the depth guard leaves a sound session |
| `BrokerGaps.LiveSound` | src/app/agent_proxy/broker.py:1040-1320 | over any sequence of messages, losses, garbage, resets and key reads a session stays sound |
| `BrokerGaps.OpeningShape` | src/app/agent_proxy/broker.py:931-978 | the open phase queues at most one marker, then the ring above the filter, and a marker whenever that leaves a gap |
| `BrokerGaps.OpeningTruthful` | src/app/agent_proxy/broker.py:609-676 | the replay leaves the live loop's starting variables truthful |
| `BrokerGaps.SessionsAreSound` | src/app/agent_proxy/broker.py:545-676 | every whole session, from opening to end, is sound |
| `BrokerGaps.UnmarkedIsUnbroken` | src/app/agent_proxy/broker.py:1040-1250 | without a marker, a segment holds every seq between the filter and its highest |
| `BrokerGaps.MarkerBeforeJump` | src/app/agent_proxy/broker.py:1150-1165 | an event above everything its segment holds, neither the successor nor the first seq the client lacks, stands right behind a marker |
| `BrokerGaps.NoSilentGap` | src/app/agent_proxy/broker.py:953-978 | a seq above the filter not yet queued when a higher one of its segment was has a marker, right before the block that jumped over it |
| `BrokerGaps.NothingTwice` | src/app/agent_proxy/broker.py:1027-1250 | no seq is queued twice between two resets |
| `BrokerMarkers.MarkerNeedsJump` | src/app/agent_proxy/broker.py:1138-1234 | inside a segment a message causes a marker only when it jumps over the successor of the highest seq, or past what the client lacks first, or lies below what was queued |
| `BrokerMarkers.NoFalseMarker` | src/app/agent_proxy/broker.py:1040-1320 | every marker of every session has its reason in the blocks: a reset opened the segment, the cursor was refused, the event behind it jumps, or an abnormal end cut the stream there |
| `BrokerMarkers.PickedUpIsRelayed` | src/app/agent_proxy/broker.py:1040-1246 | from any open session a channel that picks up where it stands and loses nothing is relayed exactly: every message above what was queued, once, in order, no marker |
| `BrokerMarkers.LosslessIsRelayed` | src/app/agent_proxy/broker.py:609-676 | after any opening a lossless channel that overlaps or continues the replay gives what the opening queued and then every message above the replay |
| `BrokerMarkers.ResetPicksUp` | src/app/agent_proxy/broker.py:1090-1137 | after any reset, by a message or by the key, the new numbering is picked up without another marker |
| `BrokerMarkers.HoleIsAnnouncedOnce` | src/app/agent_proxy/broker.py:1166-1192 | one marker covers a hole below the replay, and every event out of it is delivered |
| `BrokerMarkers.MarkersClaimNothing` | src/app/agent_proxy/broker.py:264-274 | a marker's id carries no seq, or the seq of the cursor that was honoured |
| `BrokerEnds.EndsNormallyIff` | src/app/agent_proxy/broker.py:609-676 | a session ends normally if and only if the run was abandoned at open (empty ring, lease known to be gone), or the whole replay was taken and the run was over at open or a terminal event was queued |
| `BrokerEnds.TerminalIsLast` | src/app/agent_proxy/broker.py:1240-1251 | past the replay a session is ended normally exactly by a terminal event, which is its last block |
| `BrokerEnds.AbnormalStepIff` | src/app/agent_proxy/broker.py:1263-1320 | a turn ends a session abnormally exactly when the queue has no room or the key re-read timed out |
| `BrokerEnds.HonouredIff` | src/app/agent_proxy/broker.py:901-929 | a cursor with a seq is honoured if and only if it names the present generation and a seq the counter has reached; any other is announced |
| `BrokerEnds.RefusalIsTheFirstBlock` | src/app/agent_proxy/broker.py:620-640 | a refused cursor in a named session is told so by the first block, which names where the replay starts |
| `BrokerEnds.HonouredCursorGetsTheRest` | src/app/agent_proxy/broker.py:931-978 | on a ring that reaches back to it, an honoured cursor is answered with exactly the events above it, without a marker |
| `BrokerDedup.OneMarkerPerMessage` | src/app/agent_proxy/broker.py:1065-1242 | one message causes at most one marker, before its own block, of its generation, claiming no seq and naming the message |
| `BrokerDedup.KeyOnlyMarks` | src/app/agent_proxy/broker.py:1278-1320 | the key re-read queues at most one marker and no data |
| `BrokerDedup.KeyResetsIff` | src/app/agent_proxy/broker.py:1278-1320 | the re-read resets exactly on another generation, and speaks exactly then or for a refused cursor on adoption |
| `BrokerDedup.RegressionIsAnnounced` | src/app/agent_proxy/broker.py:1111-1137 | a same-epoch message at or below the last arrival is announced and delivered |
| `BrokerDedup.DroppedWasReplayed` | src/app/agent_proxy/broker.py:1193-1206 | at any point of any session a dropped message has a seq this session's replay queued under the same epoch |
| `BrokerDedup.DropLosesNothingIff` | src/app/agent_proxy/broker.py:1192-1206 | a dropped message had been queued if and only if it is itself in the ring the replay read |
| `BrokerDedup.DroppedIff` | src/app/agent_proxy/broker.py:1065-1206 | a message is dropped exactly by the guard: the session's generation, above the last arrival, not above the baseline, not below the replay |
| `BrokerDedup.LostIff` | src/app/agent_proxy/broker.py:1192-1206 | at any point of any session a message is lost if and only if it passes that guard without being in the ring |
| `BrokerDedup.OneLifeLosesNothing` | src/app/agent_proxy/broker.py:1192-1206 | while an epoch names one life of the counter nothing is ever lost |
| `BrokerDedup.SameEpochResetIsLost` | src/app/agent_proxy/broker.py:1035-1035 | concrete input: a same-epoch reset before any live message loses an event |
| `BrokerEpochs.GapFreeIffOneGeneration` | src/app/agent_proxy/broker.py:931-1250 | for any cursor and any ring of consecutive seqs whose opening queues no marker: every continuation over any sound channel is free of silent gaps per generation if and only if the replayed elements share one epoch, which is the session's generation unless the session ends with them |
| `BrokerEpochs.NewestNamesTheSession` | src/app/agent_proxy/broker.py:609-640 | a session is named by the key, or by the newest ring element when the key is unreadable |
| `BrokerEpochs.TwoEpochRingHasSilentGap` | src/app/agent_proxy/broker.py:931-978 | concrete ring of two epochs, no marker, condition not met |
| `BrokerEpochs.RenamedCounterHasSilentGap` | src/app/agent_proxy/consumer.py:554-570 | concrete session: one element under the old epoch, a live one under the new, queued without a marker |
| `CursorCodec.IdRoundTrip` | src/app/agent_proxy/broker.py:228-262 | the printed `id:` of any event parses back to the same epoch and seq, whatever the query parameter |
| `CursorCodec.AfterSeqRoundTrip` | src/app/agent_proxy/broker.py:245-250 | `?afterSeq=` of any counter value, in any script of decimal digits, is that cursor |
| `CursorCodec.HeaderNeverFailsIff` | src/app/agent_proxy/broker.py:228-251 | parsing a header never raises if and only if its tail is not a digit string outside decimal or too long |
| `CursorCodec.OnlyPrintedFormCounts` | src/app/agent_proxy/broker.py:238-244 | only the printed form gives a cursor with a seq or epoch; every other header degrades to the empty one |
| `CursorCodec.EmptyHeaderIsNone` | src/app/agent_proxy/broker.py:238-251 | an empty header is no header |
| `CursorCodec.QueryNeverFailsIff` | src/app/agent_proxy/broker.py:245-250 | a query value is a 400 if and only if it is empty or holds a non-digit, and raises if and only if it is all digits that `int()` does not convert |
| `CursorCodec.SuperscriptQueryFails` | src/app/agent_proxy/broker.py:245-250 | concrete query value that raises |
| `CursorCodec.SuperscriptHeaderFails` | src/app/agent_proxy/broker.py:238-251 | concrete header that raises |
| `CursorCodec.CounterFits` | src/app/agent_proxy/broker.py:253-262 | every counter a Redis key can hold prints short enough to parse |
| `Reconnect.CleanSession` | src/app/agent_proxy/broker.py:545-676 | what a client takes from one session without a marker is consecutive, of one generation, and starts at or below the cursor's successor |
| `Reconnect.NothingInvented` | src/app/agent_proxy/broker.py:953-1246 | every queued event is in the ring above the filter or came over the channel, and is named |
| `Reconnect.ChainIsComplete` | src/app/agent_proxy/broker.py:901-978 | over any chain of sessions resumed at the last block taken, no marker means no missing seq below the highest |
| `Reconnect.AfterLastMarker` | src/app/agent_proxy/broker.py:901-978 | from any visit on, whatever markers came before, no further marker means one generation with no seq missing above the cursor, and the cursor's own generation if it had a seq |
| `Reconnect.CursorWasReceived` | src/app/agent_proxy/broker.py:228-274 | over any chain, wherever the connection broke, the seq a client comes back with is none or that of an event it received |
| `Reconnect.ChainIsExact` | src/app/agent_proxy/broker.py:901-978 | with a channel that carries only later messages, the client's transcript is seq 1, 2, 3 and so on, once each, in order |
| `Handover.RunsKeepInv` | src/app/agent_proxy/broker.py:351-479 | received, in hand and queued blocks always add up to everything put, over every interleaving |
| `Handover.ReceivedIsPrefix` | src/app/agent_proxy/broker.py:351-479 | the client always holds a prefix of what was queued |
| `Handover.SentinelFits` | src/app/agent_proxy/broker.py:524-543 | a reader about to finish always finds the reserved slot free |
| `Handover.NormalEndIsDelivered` | src/app/agent_proxy/broker.py:351-479 | after the normal-end flag the writer stops only behind the last block or because the client left; the drain timeout is unreachable |
| `Handover.RefusedOnlyWhenBehind` | src/app/agent_proxy/broker.py:731-787 | a live block is refused only while at least half the ceiling of the newest, live blocks are still waiting in the queue |
| `Handover.AbandonsIff` | src/app/agent_proxy/broker.py:400-479 | the writer abandons the stream if and only if something went wrong before and the reader had not ended normally |
| `Handover.CloseNeedsStandstill` | src/app/agent_proxy/broker.py:815-881 | the supervisor closes only on an empty queue or after a whole budget in which the client took nothing, and only for a run that is over or idle with its lease known to be gone |
| `Handover.DrainCompletes` | src/app/agent_proxy/broker.py:390-479 | serving the queue after a normal end delivers everything, in as many hand-overs as blocks |
| `Utf8.RoundTrip` | src/app/agent_proxy/transport.py:191-205 | surrogateescape decoding then encoding returns any byte string, UTF-8 or not |
| `Utf8.WellFormedIsDecoded` | src/app/agent_proxy/transport.py:191-200 | well-formed UTF-8 is read as the code points it stands for |
| `JsonText.ScanRoundTrip` | src/app/agent_proxy/transport.py:191-200 | the ASCII JSON literal of any decoded text scans back to that text, followed by anything |
| `JsonText.QuoteIsAscii` | src/app/agent_proxy/transport.py:191-200 | the literal is printable ASCII, so its length in characters is its length in bytes |
| `Element.ElementRoundTripIff` | src/app/agent_proxy/transport.py:514-531 | splicing any raw block into an element and parsing it gives the same epoch, seq and bytes if and only if the counter is below 10^14; from there on the script prints an exponent and the element is skipped |
| `Ring.EventRing.constructor` | src/app/agent_proxy/transport.py:66-113 | an empty ring is the window of an empty history |
| `Ring.EventRing.Publish` | src/app/agent_proxy/transport.py:79-113 | the new element carries the counter; the ring stays the window of the whole history and the byte counter exact |
| `Ring.EventRing.Trim` | src/app/agent_proxy/transport.py:84-101 | both loops end with the longest suffix that fits, or the newest element |
| `Ring.EventRing.Wipe` | src/app/agent_proxy/transport.py:79-113 | losing all keys starts a new life of the counter |
| `Ring.WindowIsUnique` | src/app/agent_proxy/transport.py:84-101 | the history alone determines the ring |
| `Ring.TrimmedIsWindow` | src/app/agent_proxy/transport.py:84-101 | trimming the appended ring gives the window of the appended history |
| `Ring.RingParses` | src/app/agent_proxy/transport.py:327-352 | every ring element of a counter below 10^14 parses back to its publication |
| `Ring.RingIsSound` | src/app/agent_proxy/transport.py:79-113 | a counter life with one epoch gives the snapshot the session theorems require |
| `Pricing.PriceIsLeastCover` | src/app/agent_proxy/billing.py:28-34 | the price is the least whole amount covering the cost, at least one for any usage, zero for none |
| `Pricing.PriceCoversIff` | src/app/agent_proxy/billing.py:28-34 | a whole number of credits from one up is enough if and only if, a thousand times over, it covers each clamped count at its own rate |
| `Pricing.OneSidedPrices` | src/app/agent_proxy/billing.py:32-32 | input alone pays the input rate, output alone the output rate |
| `Pricing.PriceMonotone` | src/app/agent_proxy/billing.py:28-34 | more usage never costs less |
| `Wallet.WalletRow.ExistingTx` | src/app/wallet/service.py:98-107 | finds a row of the key exactly when there is one |
| `Wallet.WalletRow.ConsumeIncrementalClamp` | src/app/wallet/service.py:458-560 | clamps to the balance, records what was taken, never makes debt, replays a used key |
| `Wallet.WalletRow.ConsumeAgent` | src/app/wallet/service.py:224-456 | full debit, or partial debit plus debt, or refusal, or replay |
| `Wallet.WalletRow.GrantCredits` | src/app/wallet/service.py:562-671 | a grant under a fresh key settles debt first and credits the rest; a used key changes nothing and is a replay or a conflict |
| `Wallet.CreditsAreConserved` | src/app/wallet/service.py:458-475 | over every history granted = held + debited + clawed back; the simpler identity holds exactly without claw-back |
| `Wallet.KeysStayUnique` | src/app/wallet/service.py:98-107 | no idempotency key is recorded twice |
| `Wallet.GrantKeepsIdentityIff` | src/app/wallet/service.py:562-671 | a grant keeps balance = credits - debits if and only if it is refused, replayed, or finds no debt to settle |
| `Wallet.ClawbackBreaksIdentity` | src/app/wallet/service.py:562-671 | concrete wallet on which the identity is false |
| `RunBilling.StepDebitFacts` | src/app/agent_proxy/service.py:1337-1398 | a step takes at most what is wanted, was read as balance and is there, makes no debt, leaves the finalization key alone; exactly when it reports a shortfall, and when the wallet is empty then |
| `RunBilling.SettleFacts` | src/app/agent_proxy/service.py:1825-1877 | a terminal debit does nothing or brings debit plus debt to what is owed, and when it does nothing |
| `RunBilling.InvStep` | src/app/agent_proxy/service.py:1033-1203 | every action (driver phases with failing writes and a separate balance reading, crash, self-termination, run.failed, client stop, pause in two commits, resume and revert, sweep ticks in three steps, top-ups and debits of other runs) keeps the books of the run |
| `RunBilling.NeverAboveSeenIff` | src/app/agent_proxy/service.py:1123-1201 | over every run, whatever writes fail and whenever sweeps come, debits plus debt never exceed the price of the highest usage seen if and only if every debit made on a stale reading (a step after the finalization key was used, a tick whose ledger reading was overtaken) fits under it |
| `RunBilling.DebtAlwaysNeedsKey` | src/app/wallet/service.py:339-456 | in every state of every run, debt of the run comes with its used finalization key |
| `RunBilling.MeanwhileKeeps` | src/app/wallet/service.py:458-560 | top-ups and any debits of other runs and chats leave the run's own rows and keys alone |
| `RunBilling.SnapshotIsSeen` | src/app/agent_proxy/service.py:1123-1151 | while the anchor writes succeed the snapshot row is the highest usage seen |
| `RunBilling.NeverAboveSnapshot` | src/app/agent_proxy/service.py:1123-1164 | hence in every reachable state debits plus debt are at most the price of the stored snapshot |
| `RunBilling.FlushCatchesUp` | src/app/agent_proxy/service.py:1643-1660 | a flush that succeeds puts everything its driver knows into the row |
| `RunBilling.RemainderIsTriedOnce` | src/app/agent_proxy/service.py:1194-1201 | the remainder is tried once per processing, whatever came of it |
| `RunBilling.StatusHasCause` | src/app/agent_proxy/service.py:1165-1201 | over every run each status comes with the event that writes it |
| `Settlement.TickIsThreeSteps` | src/app/agent_proxy/consumer.py:968-1004 | listing, pricing and debiting with nothing in between is one finalization |
| `Settlement.SweepBillsIff` | src/app/agent_proxy/service.py:929-985 | finalizing any run, whatever its status by now and whatever was found owed, takes or owes that amount if and only if it is positive, the finalization key is free and the wallet can be debited; an active run leaves the working set unless the ledger conflicts |
| `Settlement.ConflictsIff` | src/app/wallet/service.py:281-298 | the conflict arises if and only if something is owed, reconciliation is off, and the key is used with another amount |
| `Settlement.ConflictIsForever` | src/app/agent_proxy/consumer.py:984-1004 | such a run meets the same conflict at every later tick, whatever happens in the wallet |
| `Settlement.ConflictKeepsRunListed` | src/app/agent_proxy/service.py:957-985 | concrete run that gets there, step by step, and stays active with two credits owed |
| `Settlement.ListedIsChargedIff` | src/app/agent_proxy/consumer.py:972-999 | once listed, a run is charged whatever becomes of it if and only if the key is free, something is owed by the listed counts, and the wallet can be debited at that moment |
| `Settlement.ListedThenStopped` | src/app/agent_proxy/runs_repo.py:185-212 | concrete run listed and then stopped by its client |
| `Settlement.StoppedWhileListedIsCharged` | src/app/agent_proxy/service.py:929-985 | the tick debits that cancelled run |
| `Settlement.CrashSettlesIff` | src/app/agent_proxy/service.py:929-985 | whenever a driver goes, in any phase between any two commits, the run ends settled if and only if it was settled, or is still active with a free finalization key and a wallet that can be debited |
| `Settlement.RestingStays` | src/app/agent_proxy/runs_repo.py:173-179 | over every trace a run without a driver, in a final status (or paused and not resumed) and on no tick's list, is never charged again, so an unsettled one stays unsettled |
| `Settlement.DroppedRests` | src/app/agent_proxy/consumer.py:980-1004 | a run whose only listing is dropped can rest |
| `Settlement.OpenRunCanSettle` | src/app/agent_proxy/runs_repo.py:173-179 | any other run can still be settled: resume, top up, sweep |
| `Settlement.FinalizeIsIdempotent` | src/app/agent_proxy/service.py:889-985 | a second finalization changes nothing |
| `Settlement.LateCompletedAddsNothingIff` | src/app/agent_proxy/service.py:1825-1877 | after a sweep with any amount, and any top-ups and debits of other runs, a `run.completed` of any usage and any remembered charge adds nothing if and only if its remainder is not positive, the finalization key was used before or by the sweep, or the wallet cannot be debited then |
| `RunBilling.StepKeepsBoundIff` | src/app/agent_proxy/service.py:1123-1164 | in any state at all, with anything happening to the wallet before and after the balance reading, a `usage.delta` and its debit leave the bound intact if and only if there was room for what the step takes under the row it leaves |
| `RunBilling.LostFlushIff` | src/app/agent_proxy/service.py:1665-1670 | after a failed snapshot write, with the finalization key free, the bound survives if and only if the step is worth no more than the row, or the whole balance still fits, or the step's key was used |
| `Settlement.CompletedBeforeRemainderIsNeverSettled` | src/app/agent_proxy/service.py:1188-1201 | concrete crash between `completed` and the remainder: a credit owed, five in the wallet, nothing will ever collect it |
| `Settlement.StoppedBeforeDebitIsNeverSettled` | src/app/agent_proxy/runs_repo.py:185-212 | the same after a client stop before the step's debit |
| `Settlement.FailedBeforeDebitIsNeverSettled` | src/app/agent_proxy/service.py:1165-1173 | the same after `run.failed` on a restarted driver |
| `Settlement.EmptyWalletIsNotSettled` | src/app/wallet/service.py:339-456 | concrete orphan with an empty wallet: the sweep leaves it unsettled |
| `Settlement.LostFlushBreaksBound` | src/app/agent_proxy/service.py:1665-1670 | concrete run whose ledger passes its snapshot after a failed write |
| `Settlement.LateUsageChargesTwice` | src/app/agent_proxy/service.py:1337-1398 | concrete run charged twice for the same usage |
| `Settlement.LateCompletedCharges` | src/app/agent_proxy/service.py:1825-1877 | concrete `run.completed` that charges after a sweep on an empty wallet and a top-up |
| `RunBilling.StepsTelescope` | src/app/agent_proxy/service.py:1337-1398 | with enough balance any number of steps, in any order, repeated or re-seeded, debit exactly the highest price seen |
| `RunBilling.StepsPlusRemainder` | src/app/agent_proxy/service.py:1833-1877 | steps and remainder together cost the price of a dominating final usage |
| `RunBilling.StepReachesPriceIff` | src/app/agent_proxy/service.py:1382-1385 | a step brings the ledger to its price if and only if that is already paid or its key is free |
| `Settlement.ShortfallPauses` | src/app/agent_proxy/service.py:1344-1398 | a step ends its driver if and only if something is wanted and the balance read was zero, or its key is free and neither the reading nor the balance at the debit covers it; the wallet is empty then if and only if nothing was added since the reading; no debt is made |
| `Settlement.PausedWithMoney` | src/app/agent_proxy/service.py:1344-1398 | concrete top-up between reading and debit: the run is paused with five credits in the wallet |
| `Settlement.PausedIsBilledAgainIff` | src/app/agent_proxy/runs_repo.py:173-179 | a paused run is billed again if and only if, at the sweep after its resume, the finalization key is free, the shortfall still owed and the wallet can be debited |
| `Settlement.ShortStepTakesTheRest` | src/app/agent_proxy/service.py:1748-1778 | concrete step worth two on a balance of one, commit by commit, to the pause |
| `Settlement.PausedParentIsBilledAgain` | src/app/agent_proxy/runs_repo.py:221-237 | that parent, resumed and topped up, is debited the other credit by the sweep |
| `RunBilling.RunBiller.constructor` | src/app/agent_proxy/service.py:819-830 | a new subscription seeds `charged` from the ledger in incremental mode |
| `RunBilling.RunBiller.ChargedForRun` | src/app/wallet/service.py:128-148 | the sum of the run's debits |
| `RunBilling.RunBiller.BillStep` | src/app/agent_proxy/service.py:1303-1398 | the step method performs the step debit on the rows, from a balance read before |
| `RunBilling.RunBiller.BillCompleted` | src/app/agent_proxy/service.py:1794-1877 | the remainder is debited at most once per processing |
| `RunBilling.RunBiller.FinalizeOrphan` | src/app/agent_proxy/service.py:885-985 | the sweep debits what the counts say is owed beyond the ledger; a conflict changes nothing and is reported |
| `Runs.RunsRepository.Create` | src/app/agent_proxy/runs_repo.py:34-66 | inserts a running row unless the id exists |
| `Runs.RunsRepository.Mark` | src/app/agent_proxy/runs_repo.py:86-131 | moves an active run only, and says whether it did |
| `Runs.RunsRepository.Stop` | src/app/agent_proxy/runs_repo.py:185-212 | an active run of this user becomes cancelled and nothing else changes; otherwise nothing changes |
| `Runs.RunsRepository.Cas` | src/app/agent_proxy/runs_repo.py:221-237 | wins exactly on a paused row |
| `Runs.RunsRepository.ActiveChild` | src/app/agent_proxy/runs_repo.py:214-219 | finds a continuation exactly when there is one |
| `Runs.RunsRepository.Revert` | src/app/agent_proxy/runs_repo.py:239-259 | back to paused exactly when resumed and childless |
| `Resume.SingleFlightStep` | src/app/agent_proxy/service.py:2171-2245 | every step of any resume call, stream, stop or sweep keeps the single-flight invariant |
| `Resume.ResumeIsSingleFlight` | src/app/agent_proxy/service.py:2171-2245 | over every interleaving a parent has at most one continuation; while paused it has none and no call in flight |
| `Resume.LatePauseIff` | src/app/agent_proxy/runs_repo.py:86-104 | a late pause keeps single flight if and only if the parent is not a resumed one with a child or a winner |
| `Resume.LatePauseGivesTwoChildren` | src/app/agent_proxy/runs_repo.py:86-104 | concrete run with two continuations |
| `Resume.StepIsLawful` | src/app/agent_proxy/runs_repo.py:86-259 | each step changes a status only along the allowed edges, and a stop never changes another user's run |
| `Resume.FinalStatusIsAbsorbing` | src/app/agent_proxy/runs_repo.py:106-131 | completed, failed and cancelled rows never change again, over every trace |
| `Resume.PausedIsLeftByCasOnly` | src/app/agent_proxy/runs_repo.py:221-237 | a paused row stays paused until a resume call's compare-and-set on it |
| `Resume.StatusHasCause` | src/app/agent_proxy/runs_repo.py:86-259 | over every interleaving a row shows a status because a step of the kind that writes it did: completed by its stream, failed by its stream or a sweep, cancelled by its own user's stop, paused by its stream or a revert, resumed by a compare-and-set |
| `Resume.WritesTake` | src/app/agent_proxy/runs_repo.py:86-212 | on an active run each of those writes leaves the status it names |
| `Resume.WonOrHandedBack` | src/app/agent_proxy/service.py:2171-2220 | a compare-and-set wins exactly on a paused parent, and a failed launch hands the parent back |
| `Resume.OnlyOwnersResume` | src/app/agent_proxy/service.py:2144-2170 | over every interleaving a run is resumed by its own user only, and its continuation is theirs |
| `Lease.LeaseKey.Acquire` | src/app/agent_proxy/transport.py:366-393 | takes a free or expired key for exactly its time to live; a live one is left as it is |
| `Lease.LeaseKey.Renew` | src/app/agent_proxy/transport.py:128-139 | an own or missing key is held for a full time to live from now; a foreign one is reported and left as it is |
| `Lease.LeaseKey.Release` | src/app/agent_proxy/transport.py:117-126 | never removes another owner's lease |
| `Lease.ConfirmedHold` | src/app/agent_proxy/consumer.py:535-552 | from any state, without a further loss of the key, a driver with an answered renewal is the holder |
| `Lease.LeaseConverges` | src/app/agent_proxy/consumer.py:535-552 | once all remaining drivers had one answered renewal, at most one is left and it holds the lease |
| `Lease.DrivesIff` | src/app/agent_proxy/consumer.py:535-552 | who drives after each step: an answered renewal ends a driver only on evidence of another holder, and no answer ends nobody |
| `Lease.OthersKeepTheLease` | src/app/agent_proxy/transport.py:117-139 | nobody's step takes the lease from another holder |
| `Lease.VanishingKeyLeavesTwo` | src/app/agent_proxy/transport.py:128-139 | concrete run: a key lost between two renewals leaves two drivers |
| `Sweep.StampedIsNeverListed` | src/app/agent_proxy/runs_repo.py:173-179 | a run stamped often enough is never even a candidate, at any point of any trace |
| `Sweep.HeartbeatProtectsIff` | src/app/agent_proxy/runs_repo.py:173-179 | whatever Redis does, stamping once per period protects a run if and only if the period fits the orphan window |
| `Sweep.ValidatorMissesTheTick` | src/app/config.py:892-899 | a configuration that passes validation although the stamping tick is longer than the window |
| `Sweep.KeyHolds` | src/app/agent_proxy/transport.py:128-139 | at any point of any trace the key is what the last renewal made it unless wiped since |
| `Sweep.LiveLeaseIsFinalizedIff` | src/app/agent_proxy/consumer.py:968-1004 | with heartbeats failing and renewal gaps below the time to live, over any restarts and flushes at any moment, a run is finalized if and only if a probe comes between a wipe and the next renewal |
| `Sweep.GraceProtects` | src/app/agent_proxy/consumer.py:968-972 | with gaps below the grace and no restart inside a tick, what a tick finds wiped was flushed, not restarted |
| `Sweep.RestartsAreHarmless` | src/app/agent_proxy/consumer.py:968-1004 | hence no number of restarts finalizes the run; only a probe between a flush and the next renewal does |
| `Sweep.NoAnswerNoHarm` | src/app/agent_proxy/consumer.py:968-984 | an unanswered uptime check lists nothing and an unanswered probe finalizes nothing |
| `Sweep.RestartInsideTickFinalizes` | src/app/agent_proxy/consumer.py:968-1004 | a restart between the uptime check and the lease probe finalizes a renewing run |
| `Sweep.SweepOrphans` | src/app/agent_proxy/consumer.py:945-1004 | an unknown or short uptime skips the tick; an unknown or live lease skips the run; an SQL error of one run does not stop the rest; any other error ends the tick at that run |
| `Sweep.OnlyKnownOrphans` | src/app/agent_proxy/consumer.py:980-1004 | of the candidates reached, exactly those whose lease is known to be gone and whose writes succeed are finalized |
| `Sweep.ServedIff` | src/app/agent_proxy/consumer.py:980-1004 | a candidate is served if and only if neither it nor one listed before it ends the tick |
| `Snapshot.FlushesAreInvisible` | src/app/agent_proxy/service.py:1637-1648 | for every flush schedule the collapsed buffer has the head, up to the cap, of all deltas |
| `Snapshot.FlushedBufferIsTheHead` | src/app/agent_proxy/service.py:1774-1782 | right after a flush the buffer, which the pause block ships, is exactly that head |
| `Snapshot.Relay.Append` | src/app/agent_proxy/service.py:1050-1058 | a delta is appended to the history the buffer stands for |
| `Snapshot.Relay.Collapse` | src/app/agent_proxy/service.py:1643-1648 | submits the head of everything heard and replaces the buffer by it |
| `Snapshot.SnapshotsRepository.Upsert` | src/app/agent_proxy/snapshots_repo.py:135-176 | per-column guard; both refusals are visible in the answer |
| `Snapshot.SnapshotsRepository.EnsureRow` | src/app/agent_proxy/snapshots_repo.py:207-225 | creates a row with defaults, never touches an existing one |
| `Snapshot.SnapshotsRepository.TouchHeartbeat` | src/app/agent_proxy/snapshots_repo.py:178-205 | changes the heartbeat column only and reports a missing row |
| `Snapshot.SnapshotsRepository.ClearPendingApproval` | src/app/agent_proxy/snapshots_repo.py:227-245 | clears the owner's pending approval; counts zero exactly when nothing changed |
| `Snapshot.SnapshotsRepository.SweepExpired` | src/app/agent_proxy/snapshots_repo.py:247-280 | a row changes exactly when it is terminal, old and not yet empty; it then loses its text and approval and nothing else; the count is the number of changed rows, zero exactly when the table is unchanged |
| `Snapshot.OneWriteKeeps` | src/app/agent_proxy/snapshots_repo.py:135-155 | owner and counters never regress; heartbeat and sweep leave `updated_at` alone |
| `Snapshot.TextOnlyGrows` | src/app/agent_proxy/snapshots_repo.py:135-155 | over any interleaving of writers counters never fall and unswept text grows only by extension |
| `Snapshot.ForeignWritesAreInert` | src/app/agent_proxy/snapshots_repo.py:151-153 | another tenant's submissions can be erased from any interleaving without changing the outcome |
| `Snapshot.NoFalseWaiting` | src/app/agent_proxy/snapshots_repo.py:148-149 | an answered approval is not resurrected by writes that do not speak for it |
| `Snapshot.LastSpeakerDecides` | src/app/agent_proxy/snapshots_repo.py:147-151 | over any interleaving, approval, tool, time and heartbeat are what the last write that speaks for them said |
| `Snapshot.SilenceKeeps` | src/app/agent_proxy/snapshots_repo.py:147-151 | while no write speaks for it a field stays |
| `Snapshot.FirstRow` | src/app/agent_proxy/snapshots_repo.py:135-140 | a first submission stores everything it carries; a row made ahead of it is empty |
| `Snapshot.SweepIsIdempotent` | src/app/agent_proxy/snapshots_repo.py:247-280 | a second sweep finds nothing; active runs keep everything at any age |
| `Snapshot.StoredWasSubmitted` | src/app/agent_proxy/snapshots_repo.py:135-155 | stored text is the start text or one its owner submitted |
| `Snapshot.LongestWinsIff` | src/app/agent_proxy/snapshots_repo.py:141-144 | the row ends with the longest text submitted if and only if the submitted texts continue one another |
| `Snapshot.CountersAreTheMaximum` | src/app/agent_proxy/snapshots_repo.py:145-146 | each counter is the maximum of its start value and everything its owner submitted |
| `Snapshot.ReplayingRelaysConverge` | src/app/agent_proxy/snapshots_repo.py:94-104 | relays that replay from the start, on any flush schedule and in any order, leave a head of the stream that covers all they submitted |
| `SseSplitter.IterBlocks` | src/app/agent_proxy/service.py:2365-2376 | for every chunking, emits the cut of the concatenated stream and counts every byte |
| `SseSplitter.CutIsUnique` | src/app/agent_proxy/service.py:2365-2376 | a stream has exactly one cut into complete blocks and an unbroken tail |
| `SseSplitter.ChunkIndependence` | src/app/agent_proxy/service.py:2365-2376 | two chunkings of the same bytes forward the same blocks |
| `SseSplitter.NothingLost` | src/app/agent_proxy/service.py:2374-2376 | the forwarded blocks concatenate back to the stream apart from a white-space tail |
| `SseSplitter.CrlfStreamIsHeldBack` | src/app/agent_proxy/service.py:2365-2376 | a CR LF stream is never cut |
| `Launch.LaunchRun` | src/app/agent_proxy/service.py:742-797 | attempts are bounded; each but the last failed before the request left and left room; a failure before that point is tried again while attempts and budget last; the error is a timeout exactly when nothing was heard |
| `Launch.AtMostOnce` | src/app/agent_proxy/service.py:742-797 | at most one attempt reached the write phase, and it is the last |
| `Launch.EndsByDeadline` | src/app/agent_proxy/service.py:487-500 | the loop, backoffs included, ends by the shared deadline, plus at most one late wake-up |
| `Launch.LaunchedIffAnswered` | src/app/agent_proxy/service.py:742-797 | a launch is reported if and only if some attempt was answered inside the budget |
| `RateLimit.SlidingWindow.Allow` | src/app/api_gateway/rate_limit.py:33-44 | the answer counts every call ever made in the window, as if the key never expired |
| `RateLimit.ExpiryIsInvisible` | src/app/api_gateway/rate_limit.py:33-44 | pruning or key expiry drops only what pruning the whole history would drop |
| `RateLimit.WindowHoldsLimit` | src/app/api_gateway/rate_limit.py:33-44 | any half-open window of the configured length holds at most `limit` allowed calls |
| `RateLimit.ClosedWindowIsTwiceLimit` | src/app/api_gateway/rate_limit.py:33-44 | a closed window holds at most twice the limit, and that is reached |

## Left out

- Element.ElementRoundTripIff: parses only JSON objects whose values are strings and integers; a ring element has no other shape below 10^14, and other input is not claimed to be read as Python reads it. The epoch is plain ASCII without quotes or escapes, as `ensure_epoch` makes it. Counters above 2^53 lose digits in a Lua number before they are printed; they are rejected either way.
- BrokerGaps.SessionsAreSound: takes the three reads of the open phase as one snapshot, and one epoch per life of the counter; `BrokerDedup` and `BrokerEpochs` say exactly what happens without the second.
- CursorCodec.HeaderNeverFailsIff: header text is the Latin-1 alphabet HTTP headers carry; a query value may hold any character and enters by its digit classes.
- RunBilling.NeverAboveSnapshot: assumes one driver per run at a time, non-negative rates, and anchor writes that succeed; `NeverAboveSeenIff` needs only the first two.
- RunBilling.StepsTelescope: a repeated step index carries the same usage; `StepReachesPriceIff` says what a reused index does.
- Pricing.PriceMonotone: rates are real numbers; floating-point rounding is not modelled.
- Wallet.WalletRow.ConsumeAgent: keys are values, so two textual keys that collide (`run_id` containing a colon and a step) are not modelled; savepoints and row locks make each method one atomic step.
- Resume.ResumeIsSingleFlight: assumes the parent's stream is not processed after its pause, which `LatePauseIff` shows to be needed.
- Sweep.RestartsAreHarmless: assumes no restart inside a sweep tick, which `RestartInsideTickFinalizes` shows to be needed.
- Launch.EndsByDeadline: the budget ceiling cancels at once; only sleeps may be late.
- RateLimit.SlidingWindow.Allow: one clock for the application and Redis; fail-open on a Redis error and the order of several limits are not modelled.
- SseSplitter.IterBlocks: the parse of a block into event name and data is not modelled.
- The test whether a block is a terminal event is a flag of the event; its JSON reading is not modelled.
- Consumer start, handshake, stall detection, registry and shutdown: task plumbing around the steps modelled here.
- The `_extract_*` shape heuristics, usage anomaly warnings and audit events: no effect on the modelled state.
- Policy engine, instance manager, chat orchestrator, HTTP layer, authentication, webhooks, CRM and migrations.
- Clocks, Redis, Postgres, the network and task scheduling are parameters or steps of the models.
