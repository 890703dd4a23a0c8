# RockStream verification model

This project models the parts of RockStream whose correctness is hardest to see from the code and proves what they promise.

* **Exactly-once delivery to Kafka.** `KafkaSink` stages an epoch in a broker transaction, commits it only after the cluster
  checkpoint, and after a crash asks the topic whether the epoch landed before it commits again. `KafkaSinkMachine` is the sink as a
  machine that advances by one call or one broker answer at a time; `KafkaSinkObject.KafkaSink` is the object with its fields. Each of
  its methods is given the broker's answers and is proved to ask, and to end, exactly as the machine does with those answers
  (`KafkaExchange`), and, besides, as plain terms over the answers say (`KafkaVerdict` for the lookup). `KafkaFault` proves that a
  forced timeout lands nothing. `KafkaBroker` and `KafkaProtocol` add partition logs, transactions (with the
  contract of Apache Kafka's KIP-98), durable handles, crashes, timeouts, lost answers and other producers. `KafkaInvariant`,
  `KafkaSteps`, `KafkaLookup` and `KafkaExactlyOnce` prove exactly-once over every run in which the driver keeps a stated discipline.
* **The view exporter.** `KafkaViewDriver` proves that the exporter of a materialized view is such a driver and that a consumer sees
  a prefix of its epochs, each once, in order. `KafkaTidy`, `KafkaProgress`, `KafkaRecovery`, `KafkaRestart` and
  `KafkaUninterrupted` prove which states need a restart, which pending epochs can still be confirmed, with a restart and without,
  and from which states the next epoch can be delivered. `ViewState`
  and `ViewExport` prove that what the envelopes say adds up to the view, using `ViewRowKey`: the text key that groups rows never
  confuses two groups. `ViewDelivery` puts the two together: what is in the topic rebuilds the view.
* **Disk-log replay** (`DmLogReplay`, `DmLogOutcome`): a byte-level parser that rewrites a disk image in place, against a fold of writes,
  and exactly how it ends for every log.
* **Fail-closed test accounting** (`TestAccounting`, `TargetAssignment`): "no errors" is equivalent to the promise, both ways.
* **Node lifecycle** (`NodeRuntime`, `ShutdownCoordinator`): failures, teardown order, events, and all interleavings of shutdown.
* **Project apply and CSV** (`Csv`, `CsvSeed`, `CsvDocument`, `ProjectApply`): the printer and parser pair, batches, resuming.
* **Evidence metrics** (`Percentile`, `EvidenceGate`): interpolated percentiles, and a generator and a release gate that recomputes
  its summaries on its own and agrees.

Where a promise turned out not to hold of the code, the code is kept, a lemma gives a run from an empty topic or an input that
shows it, and an if-and-only-if says when the promise does hold:

* A driver that commits after a recovery whose `send` failed commits an empty transaction and marks the epoch delivered
  (`CommitOfUnloadedTransactionLosesTheEpoch`). In every run a successful commit has committed a record if and only if a `send`
  succeeded since the transaction began (`CommitDeliversIffSent`). The view exporter never commits otherwise.
* A transaction that is open when the *high* watermark is read does not prevent "absent" if it resolves before the *stable* offset is
  read (`UnresolvedAtHighCaptureMayStillAnswerAbsent`). A lookup can answer "absent" if and only if every partition still to be read
  was marked stable (`CanAnswerAbsentIff`), and with the exact last stable offset a partition is marked unstable if and only if a
  record below its high watermark is open at that moment (`MarkedUnstableIff`).
* The staged counter, documented as the fill level, is the size of the staged set throughout if and only if no commit or abort of an
  unstaged epoch completes while it is above zero (`CountAlwaysExactIff`); otherwise a connected sink can hold any number of staged
  epochs with the counter at zero (`MisnamedCommitsDefeatBackpressure`).
* An exporter that staged an epoch and could not save its cursor, or could not abort a failed staging, refuses every further epoch until
  it is restarted (`UnsavedEpochNeedsARestart`, `NoRestartNeededIff`).
* A committed record with the epoch's number and no connector id, such as a legacy marker of another producer, can block the
  pending epoch for ever (`MarkerBlocksForEver`). The exporter can confirm it if and only if its own record comes first, or no such
  record is there, or the call under way can still deliver it (`PendingCanBeConfirmedIff`).
* A recovery whose `send` failed leaves the producer in its transaction, and every later recovery of that process fails at `begin`
  (`FailedSendNeedsARestart`). `PendingNeedsNoRestartIff` says exactly from which states the running process can confirm the pending
  epoch by itself.
* A cell with a line break is printed correctly but not read back, because ingestion splits lines first (`PrintedRowIsIngestedIff`),
  and the header is split at every comma, quoted or not. The rows of a result are read back each in its place if and only if the
  result has neither and no row is one blank cell (`EveryRowReadsBackInPlaceIff`); as a whole it can be read back by accident
  (`BlankRowHidesSplitRow`).
* Two different seeds can share the key `table:file` (`SeedKeysCollideIff`, `StraddlingSeedIsSkipped`), and applying a project is
  exactly-once if and only if no attempted step was lost between its execution and the end of its save (`ExactlyOnceInOrderIff`,
  `LostStepRunsTwice`).
* `Stopped` can still be overwritten by a late `Draining` or `Fatal` (`LateDrainingReopensStopped`, `LateFatalReopensStopped`,
  `StoppedIsFinalIff`, `FatalNeverWrittenIff`).
* After a failed `start`, the node's own events do not end in its actual state (`Start`, `Shutdown`).
* The metric check rejects a generated summary of a single sample that equals its target (`GeneratedSummaryAcceptedIff`).

## Model

| member | source | states |
|---|---|---|
| KafkaSinkObject.KafkaSink.constructor | crates/rockstream-connectors/src/kafka_sink.rs:181-239 | a new sink holds nothing and allows five staged epochs |
| KafkaSinkObject.KafkaSink.SetClusterCommitted | crates/rockstream-connectors/src/kafka_sink.rs:284-286 | only the checkpoint moves |
| KafkaSinkObject.KafkaSink.StagePayload | crates/rockstream-connectors/src/kafka_sink.rs:134-178 | what is asked and how staging ends, for every set of answers, as the machine does and in plain terms: it succeeds if and only if there is room, the epoch is not staged, and begin and send succeed; then the epoch is added and counted, otherwise nothing changes |
| KafkaSinkObject.KafkaSink.BeginAndSend | crates/rockstream-connectors/src/kafka_sink.rs:150-170 | the requests are begin, send, and an abort exactly after a failed send; ready if and only if both succeed |
| KafkaSinkObject.KafkaSink.PreCommitPayload | crates/rockstream-connectors/src/kafka_sink.rs:105-132 | an envelope of another epoch or connector, or without a broker, is an I/O error that asks nothing; any other is staged with a full handle |
| KafkaSinkObject.KafkaSink.PreCommit | crates/rockstream-connectors/src/kafka_sink.rs:467-476 | the legacy marker is staged with the legacy handle, with the same requests and results |
| KafkaSinkObject.KafkaSink.Commit | crates/rockstream-connectors/src/kafka_sink.rs:478-532 | panics if and only if the checkpoint does not cover the epoch or it is delivered; an idle state or a forced timeout fails without commit, the timeout with exactly an abort request; otherwise it delivers if and only if the commit request succeeds, and any failure leaves the fields as they were |
| KafkaSinkObject.KafkaSink.MarkCommitted | crates/rockstream-connectors/src/kafka_sink.rs:520-524 | the epoch is delivered and unstaged, and the counter drops unless it is zero |
| KafkaSinkObject.KafkaSink.Abort | crates/rockstream-connectors/src/kafka_sink.rs:534-548 | one abort request; the epoch is unstaged and the counter drops only after it succeeded |
| KafkaSinkObject.KafkaSink.CaptureWatermarks | crates/rockstream-connectors/src/kafka_sink.rs:367-391 | the partitions that were stable through their high watermark, if there is one and every watermark request was answered, and otherwise none |
| KafkaSinkObject.KafkaSink.JudgePoll | crates/rockstream-connectors/src/kafka_sink.rs:393-433 | an error decides that nothing is known, a record of the epoch that it is there or in conflict, the last awaited end of a stable partition that it is absent, and nothing else decides |
| KafkaSinkObject.KafkaSink.ScanTopic | crates/rockstream-connectors/src/kafka_sink.rs:392-436 | the verdict of the poll loop is decided by the first poll that decides, for every sequence of polls |
| KafkaSinkObject.KafkaSink.LookupEpoch | crates/rockstream-connectors/src/kafka_sink.rs:314-436 | on the answers alone: present or conflict if and only if the first deciding poll is a record of the epoch, absent if and only if every partition was stable and ended before any such record or error, unknown if and only if a request failed, an error came first or the polls ran out; only reads are asked |
| KafkaVerdict.OneVerdict | crates/rockstream-connectors/src/kafka_sink.rs:392-436 | at most one verdict fits the answers, so that the four meanings are if-and-only-ifs |
| KafkaSinkObject.KafkaSink.MarkRecovered | crates/rockstream-connectors/src/kafka_sink.rs:584-590 | the epoch is delivered and unstaged, and the counter drops only if it was staged |
| KafkaSinkObject.KafkaSink.Recommit | crates/rockstream-connectors/src/kafka_sink.rs:595-637 | the requests are begin, send and commit, each only after the one before succeeded, with no abort; delivered if and only if all succeed, otherwise nothing changes |
| KafkaSinkObject.KafkaSink.CheckBeforeCommit | crates/rockstream-connectors/src/kafka_sink.rs:582-637 | a transaction is opened only after "absent"; present delivers, conflict and unknown fail, without a request that writes |
| KafkaSinkObject.KafkaSink.Recover | crates/rockstream-connectors/src/kafka_sink.rs:550-640 | a row handle beyond the checkpoint panics and one that is broken or of another connector, epoch, topic or payload is an I/O error, both without a request; otherwise the recovery ends as the verdict on the answers says |
| KafkaFault.FaultLandsNothing | crates/rockstream-connectors/src/kafka_sink.rs:491-510 | over every run, crashes and reconnects included: after a commit call hit by the timeout, until the next call, no transaction of the sink lands or is asked to that was not before, and nothing new is marked delivered |
| KafkaExchange.CallIsDetermined | crates/rockstream-connectors/src/kafka_sink.rs:134-640 | the broker's answers determine a whole call: what is asked, in which order, and how it ends |
| KafkaExchange.ExchangeIsTrace | crates/rockstream-connectors/src/kafka_sink.rs:134-640 | every exchange is a trace of the machine, so the results about machine runs apply to the object |
| KafkaExchange.Join | crates/rockstream-connectors/src/kafka_sink.rs:550-640 | exchanges compose |
| KafkaSinkMachine.TraceConcat | crates/rockstream-connectors/src/kafka_sink.rs:134-640 | calls compose: a trace of a trace is a trace |
| KafkaSinkMachine.RecoveryResendsStaged | crates/rockstream-connectors/src/kafka_sink.rs:553-607 | the handle that staging returns makes recovery resend exactly the payload that was staged, for row envelopes and legacy markers |
| KafkaBookkeeping.StagedCountFollowsStagedSet | crates/rockstream-connectors/src/kafka_sink.rs:142-173 | in every call sequence the counter is at most the maximum and at most the staged set's size, and lags behind it by at most the number of misnamed commits and aborts |
| KafkaBookkeeping.StagedCountIsExact | crates/rockstream-connectors/src/kafka_sink.rs:520-546 | when every commit and abort names a staged epoch the counter equals the staged set's size, which is at most the maximum |
| KafkaBookkeeping.StepExactIff | crates/rockstream-connectors/src/kafka_sink.rs:520-546 | a step keeps the counter exact if and only if it does not complete a commit or abort of an unstaged epoch with the counter above zero |
| KafkaBookkeeping.CountAlwaysExactIff | crates/rockstream-connectors/src/kafka_sink.rs:142-173 | over every call sequence the counter is exact throughout if and only if no event does that |
| KafkaBookkeeping.MisnamedCommitsDefeatBackpressure | crates/rockstream-connectors/src/kafka_sink.rs:305-307 | for every n a run of a connected sink after which n epochs are staged and the counter is zero |
| KafkaInvariant.BeginKeepsCore | crates/rockstream-connectors/src/kafka_sink.rs:150-160 | opening an attempt keeps the invariant when nothing of the epoch has landed |
| KafkaInvariant.ScanSurvives | crates/rockstream-connectors/src/kafka_sink.rs:367-436 | a lookup in progress stays right whatever the broker does meanwhile |
| KafkaExactlyOnce.StepKeepsInv | crates/rockstream-connectors/src/kafka_sink.rs:134-640 | every allowed step of sink, driver, broker and environment keeps the invariant |
| KafkaExactlyOnce.RunKeepsInv | crates/rockstream-connectors/src/kafka_sink.rs:134-640 | so does every disciplined run |
| KafkaExactlyOnce.AtMostOneEnvelopePerEpoch | crates/rockstream-connectors/src/kafka_sink.rs:16-22 | in every disciplined run the topic never holds two committed envelopes of one connector and epoch |
| KafkaExactlyOnce.SuccessMeansDelivered | crates/rockstream-connectors/src/kafka_sink.rs:559-637 | when commit or recover has returned success, a committed record with exactly the persisted payload is in the topic, and the epoch has moved from staged to delivered |
| KafkaExactlyOnce.ConfirmedMeansDelivered | crates/rockstream-ops/src/kafka_sink.rs:149-188 | what the driver has confirmed stays delivered for ever |
| KafkaExactlyOnce.DeliveredOnlyAfterCheckpoint | crates/rockstream-connectors/src/kafka_sink.rs:481-485 | over whole runs every visible envelope and every delivered epoch is covered by an announced checkpoint |
| KafkaExactlyOnce.StepDeliversOnlyAfterCheckpoint | crates/rockstream-connectors/src/kafka_sink.rs:559-564 | at the very step that lands or marks an epoch it is at most the sink's checkpoint |
| KafkaExactlyOnce.RecoveryBeginsOnlyAlone | crates/rockstream-connectors/src/kafka_sink.rs:583-606 | when the recovery transaction can begin, every earlier attempt at the epoch is dropped for good |
| KafkaExactlyOnce.AbsentIsSound | crates/rockstream-connectors/src/kafka_sink.rs:421-430 | "absent" only when no committed record of the epoch lies below the captured watermarks |
| KafkaLookup.AbsentMeansNoneLanded | crates/rockstream-connectors/src/kafka_sink.rs:421-435 | then nothing of the epoch has landed anywhere, unless the producer still holds a transaction |
| KafkaLookup.PresentMeansLanded | crates/rockstream-connectors/src/kafka_sink.rs:394-419 | "present" only for a landed own record with the expected bytes |
| KafkaLookup.UnresolvedIsMarkedUnstable | crates/rockstream-connectors/src/kafka_sink.rs:380-386 | a record unresolved when the stable offset is read marks its partition |
| KafkaLookup.UnstableNeverAbsent | crates/rockstream-connectors/src/kafka_sink.rs:421-430 | a marked partition keeps the lookup from ever answering "absent" |
| KafkaLookup.CanAnswerAbsentIff | crates/rockstream-connectors/src/kafka_sink.rs:421-430 | a lookup with captured watermarks can still answer "absent" if and only if every partition still to be read was stable |
| KafkaLookup.MarkedUnstableIff | crates/rockstream-connectors/src/kafka_sink.rs:380-386 | with the exact last stable offset, a partition is marked unstable if and only if a record below its high watermark is open at that moment |
| KafkaCounterexamples.UnresolvedAtHighCaptureMayStillAnswerAbsent | crates/rockstream-connectors/src/kafka_sink.rs:367-386 | an exporter run from an empty topic: unresolved at the first watermark only, and still "absent" |
| KafkaCounterexamples.FailedRecoverySendIsReal | crates/rockstream-connectors/src/kafka_sink.rs:609-620 | an exporter run from an empty topic whose recovery leaves an empty transaction open |
| KafkaCounterexamples.CommitOfUnloadedTransactionLosesTheEpoch | crates/rockstream-connectors/src/kafka_sink.rs:511-525 | committing after that run marks the epoch delivered with no record in the topic |
| KafkaHandover.CommitDeliversIffSent | crates/rockstream-connectors/src/kafka_sink.rs:511-525 | in every run, disciplined or not, a successful commit has committed a record if and only if a send succeeded since the transaction began |
| KafkaCounterexamples.FailedSendNeedsARestart | crates/rockstream-connectors/src/kafka_sink.rs:601-637 | after that run the pending epoch can be confirmed, but not without a restart |
| KafkaCounterexamples.MarkerBlocksForEver | crates/rockstream-connectors/src/kafka_sink.rs:399-418 | an exporter run from an empty topic after which no continuation confirms the pending epoch |
| KafkaCounterexamples.UnsavedEpochNeedsARestart | crates/rockstream-ops/src/kafka_sink.rs:136-144 | an exporter run that ends idle with nothing pending and from which nothing is saved without a restart |
| KafkaOrder.NothingLater | crates/rockstream-ops/src/kafka_sink.rs:85-90 | while an attempt can still land, no later epoch has been opened |
| KafkaOrder.RequestInSequence | crates/rockstream-connectors/src/kafka_sink.rs:478-548 | commit and abort requests, whatever they answer, keep landed records in epoch order |
| KafkaViewDriver.DriverStepIsAllowed | crates/rockstream-ops/src/kafka_sink.rs:149-188 | everything the exporter does is allowed by the driver discipline |
| KafkaViewDriver.StepKeepsDriverInv | crates/rockstream-ops/src/kafka_sink.rs:52-188 | its cursor, the saved handles, the confirmed epochs and the sink's current call stay in step |
| KafkaViewDriver.DriverRunIsDisciplined | crates/rockstream-ops/src/kafka_sink.rs:27-188 | every run of the exporter is a disciplined run of the sink |
| KafkaViewDriver.ViewIsDeliveredInOrder | crates/rockstream-ops/src/kafka_sink.rs:85-188 | in every run a consumer sees exactly the first k epochs, each once, in order, with the saved contents; k counts all confirmed epochs and at most the pending one |
| KafkaTidy.DriverRunIsSound | crates/rockstream-ops/src/kafka_sink.rs:52-188 | in every run the saved payloads are valid and at most the one unsettled epoch is staged, so backpressure never sets in |
| KafkaProgress.StuckStays | crates/rockstream-ops/src/kafka_sink.rs:85-145 | from a state that is not free nothing is ever saved without a restart |
| KafkaProgress.NoRestartNeededIff | crates/rockstream-ops/src/kafka_sink.rs:85-145 | with nothing pending, the next epoch can be saved without a restart if and only if the state is free: no transaction held and the epoch not staged, or a staging under way that can still be finished or aborted |
| KafkaRecovery.ConnectKeepsRecoverable | crates/rockstream-connectors/src/kafka_sink.rs:198-202 | the reconnect can resolve a leftover transaction so that the epoch stays recoverable |
| KafkaRecovery.FindOwn | crates/rockstream-connectors/src/kafka_sink.rs:392-419 | the lookup can read up to the sink's own record when nothing before it is taken for it |
| KafkaRecovery.EndLookup | crates/rockstream-connectors/src/kafka_sink.rs:374-430 | a lookup, from wherever it is, can answer "absent" when no partition left holds a record taken for the epoch below its limit |
| KafkaRecovery.CommitAgain | crates/rockstream-connectors/src/kafka_sink.rs:601-637 | after "absent" the envelope can be sent and committed again |
| KafkaRestart.DeliverInFlight | crates/rockstream-connectors/src/kafka_sink.rs:478-532 | a call under way whose transaction was not dropped, or whose lookup can still end in "absent", can deliver the pending epoch without a restart |
| KafkaRestart.HopelessStays | crates/rockstream-connectors/src/kafka_sink.rs:392-435 | a pending epoch that is neither recoverable nor in flight stays unconfirmed in every continuation |
| KafkaRestart.PendingCanBeConfirmedIff | crates/rockstream-ops/src/kafka_sink.rs:149-165 | in every state the pending epoch can be confirmed if and only if its own record comes first, or no committed record is taken for it, or the call under way can still deliver it |
| KafkaRestart.NextEpochCanBeDeliveredIff | crates/rockstream-ops/src/kafka_sink.rs:149-188 | from every state of every run some continuation delivers the next epoch if and only if nothing is pending or what is pending can be confirmed |
| KafkaUninterrupted.ToReady | crates/rockstream-connectors/src/kafka_sink.rs:478-532 | a call that cannot deliver the epoch can be ended, releasing a dropped transaction, so that a new lookup works |
| KafkaUninterrupted.StrandedStays | crates/rockstream-connectors/src/kafka_sink.rs:601-620 | a process that is down, halted, or stuck in a held transaction never confirms the pending epoch without a restart |
| KafkaUninterrupted.PendingNeedsNoRestartIff | crates/rockstream-ops/src/kafka_sink.rs:149-165 | in every state the pending epoch can be confirmed without a restart if and only if the process is up and not halted and either the call under way can deliver it, or a new lookup meets its own record first, or it meets none and the producer holds no transaction or one the call can be rid of |
| ViewRowKey.ColumnRead | crates/rockstream-ops/src/sink.rs:492-500 | a column can be read off the front of a key in one way only |
| ViewRowKey.KeyIsUnique | crates/rockstream-ops/src/sink.rs:502-515 | two rows have the same key only if they are the same row, whatever characters their texts contain |
| ViewState.AddChange | crates/rockstream-ops/src/sink.rs:527-545 | one change updates, inserts or removes its group's entry |
| ViewState.Materialize | crates/rockstream-ops/src/sink.rs:522-548 | the loop computes the collapsed log, by primary key or by whole row |
| ViewState.SameGroupIff | crates/rockstream-ops/src/sink.rs:517-528 | rows are one group if and only if they agree on the primary key columns, or are equal when there is no primary key |
| ViewState.CollapseIsExact | crates/rockstream-ops/src/sink.rs:517-548 | the collapsed state holds exactly the groups whose multiplicity is not zero, each once, with that multiplicity and the row of its last change |
| ViewExport.MoveConserves | crates/rockstream-ops/src/kafka_sink.rs:91-117 | appending to the log and staging an envelope keep envelopes and covered changes equal |
| ViewExport.RunConserves | crates/rockstream-ops/src/kafka_sink.rs:85-117 | over every run the envelopes add up to the covered part of the log, row by row |
| ViewExport.EnvelopesRebuildTheView | crates/rockstream-ops/src/kafka_sink.rs:82-117 | once nothing is left to stage, a consumer of all envelopes has rebuilt the view |
| ViewExport.LateChangeIsMissedIff | crates/rockstream-ops/src/kafka_sink.rs:106-109 | a change added later alters what is left to stage if and only if it lies beyond the cursor |
| ViewExport.SnapshotRefusedIff | crates/rockstream-ops/src/kafka_sink.rs:95-104 | the snapshot is refused if and only if some row has a negative multiplicity; otherwise it is staged with every row's multiplicity and the last epoch |
| ViewExport.ChangesStagedAre | crates/rockstream-ops/src/kafka_sink.rs:105-117 | after the snapshot nothing is staged if and only if no change is beyond the cursor; otherwise exactly the changes of the first epoch beyond it, in order |
| ViewExport.CatchesUpIff | crates/rockstream-ops/src/kafka_sink.rs:82-117 | from every state staging alone brings the export up to date if and only if the snapshot is done or no row is negative |
| ViewDelivery.TurnKeepsJoint | crates/rockstream-ops/src/kafka_sink.rs:85-188 | the view's commits and every step of the exporter keep plan, cursor, saved payloads and envelopes in step |
| ViewDelivery.TopicRebuildsTheView | crates/rockstream-ops/src/kafka_sink.rs:82-188 | in every run of exporter and view, what a consumer adds up from the topic is the view's log up to some change, and all of it when nothing is pending or left to stage |
| LittleEndian.RoundTrip | scripts/replay-dm-log-writes.py:10-19 | fixed-width little-endian fields decode to what was encoded |
| LittleEndian.DecodeConcat | scripts/replay-dm-log-writes.py:10-19 | the least significant bytes come first |
| LittleEndian.DecodeOne | scripts/replay-dm-log-writes.py:10-19 | one byte stands for itself, which with DecodeConcat fixes every field |
| DmLogReplay.WriteImage | scripts/replay-dm-log-writes.py:73-74 | one in-place write replaces exactly its bytes |
| DmLogReplay.ReplayEntries | scripts/replay-dm-log-writes.py:36-78 | the entry loop leaves the fold of the writes before the end or the failure, with the true counters |
| DmLogReplay.Replay | scripts/replay-dm-log-writes.py:21-78 | the same for the whole file, superblock checks included; the image keeps its length |
| DmLogReplay.ScanLogFits | scripts/replay-dm-log-writes.py:64-74 | no write ever leaves the image, for any log |
| DmLogReplay.LastWriteWins | scripts/replay-dm-log-writes.py:66-74 | each byte holds the data of the last write covering it, otherwise its original value |
| DmLogReplay.ReplayForgetsOverwritten | scripts/replay-dm-log-writes.py:36-78 | images that differ only where the log writes replay to the same image |
| DmLogReplay.ReplayIsRestartable | scripts/replay-dm-log-writes.py:36-78 | replaying over any partial replay gives the same outcome and image, for every log |
| DmLogReplay.EntryParses | scripts/replay-dm-log-writes.py:36-74 | an encoded entry, anywhere in a log, parses to the item it encodes |
| DmLogReplay.EncodedLogReplays | scripts/replay-dm-log-writes.py:81-108 | a well-formed encoded log replays to the writes before the first matching mark, with the exact totals, whatever follows the mark |
| DmLogReplay.EncodedLogWithoutMark | scripts/replay-dm-log-writes.py:36-78 | when the entries run out before the mark, replay fails with "mark not found" and the image holds all their writes |
| DmLogReplay.EncodedLogStops | scripts/replay-dm-log-writes.py:36-78 | when the entry after well-formed ones is refused, replay fails with its error and the image holds the writes before it |
| DmLogOutcome.RefusedIff | scripts/replay-dm-log-writes.py:37-72 | which entries are refused with which error, read off the bytes: truncated block, mark length or text, discard, other flags, write beyond the image, truncated data |
| DmLogOutcome.OutcomeIff | scripts/replay-dm-log-writes.py:21-78 | exactly how the replay of any log ends: success only at a matching mark after entries that can all be gone through, with the true totals; else the header's error, the first bad entry's, or "mark not found" |
| DmLogOutcome.WritesAre | scripts/replay-dm-log-writes.py:36-78 | and what any log has written by then: the data of the entries before the one it stops at |
| TestAccounting.ReadEvents | scripts/ci-test-inventory.py:173-182 | the table of terminal events; a repeated or an unselected name is reported if and only if there is one |
| TestAccounting.SelectedAre | scripts/ci-test-inventory.py:168 | the selection is the given cases, or everything listed when none are given |
| TestAccounting.JudgeListed | scripts/ci-test-inventory.py:183-211 | every listed case is judged, and reported if and only if its outcome is not acceptable |
| TestAccounting.ObservedResults | scripts/ci-test-inventory.py:159-216 | each listed case has the outcome its last terminal event means, each violation is reported if and only if it is one, there is none if and only if the accounting promise holds, and then passed is the number of selected names with a success and no skip marker, and with the waived ones the number selected |
| TestAccounting.JudgeIff | scripts/ci-test-inventory.py:183-211 | a case is passed, a limitation, an unexpected skip, failed, not run or not selected if and only if its last terminal event, the selection and the waivers say so |
| TestAccounting.FailsClosed | scripts/ci-test-inventory.py:183-211 | a failed event, a skip marker or an ignore without a waiver anywhere keeps the promise from holding |
| TestAccounting.NeverReportedFails | scripts/ci-test-inventory.py:193-195 | so does a selected case without a terminal event |
| TestAccounting.CaseIdsDiffer | scripts/ci-test-inventory.py:28-29 | within one target a waiver is for one test |
| TestAccounting.VerdictIsAccounted | scripts/ci-test-inventory.py:159-216 | the program's checks together are equivalent to the promise |
| TestAccounting.EachSelectedCounted | scripts/ci-test-inventory.py:183-216 | every selected case is counted once |
| TargetAssignment.DeclareSims | scripts/ci-test-inventory.py:72-79 | a group of an undefined job or a name that stands twice is reported if and only if there is one; none if and only if the groups are closed |
| TargetAssignment.CheckRequirements | scripts/ci-test-inventory.py:135-150 | no errors if and only if the job offers every feature and service a matching selector requires |
| TargetAssignment.AssignOwners | scripts/ci-test-inventory.py:91-105 | an unassigned target, an undefined owner or a missing requirement is reported if and only if it is one; none if and only if every target has a defined, suitable owner |
| TargetAssignment.CheckJobs | scripts/ci-test-inventory.py:111-129 | each bad setting of a job is reported if and only if it is one; none if and only if every job's own settings name targets it owns or runs besides |
| TargetAssignment.CheckPolicy | scripts/ci-test-inventory.py:80-110 | each hole or stale entry is reported if and only if it is one; none if and only if the policy is closed |
| TargetAssignment.Assignments | scripts/ci-test-inventory.py:68-132 | returns an assignment that keeps the promise whenever there is one, and fails otherwise |
| TargetAssignment.InventoryIsCovered | scripts/ci-test-inventory.py:153-156 | each target's owner is the one defined job the policy gives it, a job selects exactly what it owns and its supplements, the jobs together select the whole inventory, and nothing is both primary and supplemental in a job |
| TargetAssignment.RunByOneJob | scripts/ci-test-inventory.py:153-156 | a target that is nobody's supplement is selected by exactly one job, its owner |
| TargetAssignment.OwnerIs | scripts/ci-test-inventory.py:91-105 | an explicit entry wins, then the simulation group or library job, then the package's job |
| TargetAssignment.DeclaredSimIsATest | scripts/ci-test-inventory.py:88-107 | every name in a simulation group is the name of a test of the simulation package |
| TargetAssignment.SelectsIff | scripts/ci-test-inventory.py:141-142 | a requirement is for the target it names, or with ":*" for all that continue its prefix |
| TargetAssignment.FeaturesOf | scripts/ci-test-inventory.py:136-138 | a target runs with its package's features if the job lists them, else with the job's |
| TargetAssignment.ThreadsOkIff | scripts/ci-test-inventory.py:124-126 | a thread setting is valid if and only if it is one to four |
| NodeRuntime.NodeRuntime.constructor | crates/rockstream-cli/src/component.rs:540-555 | a created node with the given components, in whatever state, and no events |
| NodeRuntime.NodeRuntime.SendNodeEvent | crates/rockstream-cli/src/component.rs:577-593 | an event is dropped only when the queue is full |
| NodeRuntime.NodeRuntime.TearDown | crates/rockstream-cli/src/component.rs:623-628 | the first n components are stopped once each in reverse order; the exact events in order |
| NodeRuntime.NodeRuntime.StartComponents | crates/rockstream-cli/src/component.rs:608-633 | components start in order up to the first failure, which is fatal; later ones are untouched; the exact events in order |
| NodeRuntime.NodeRuntime.RecoverComponents | crates/rockstream-cli/src/component.rs:642-665 | components recover in order up to the first failure, which is fatal; later ones are untouched; the exact events in order |
| NodeRuntime.NodeRuntime.Start | crates/rockstream-cli/src/component.rs:598-680 | for every failure pattern, every component's final state, the stops in reverse start order, and the node's events ending in its state exactly on success; the exact events in order on success |
| NodeRuntime.NodeRuntime.Shutdown | crates/rockstream-cli/src/component.rs:684-724 | from any state everything ends stopped in reverse order; the node's events form a chain if and only if it was ready or draining and in step; the exact events in order |
| NodeRuntime.FullRun | crates/rockstream-cli/src/component.rs:15-724 | n healthy components emit exactly 4n + 6 events, and none is dropped if and only if n is at most 254 |
| Lifecycle.AcceptedIff | crates/rockstream-types/src/lifecycle.rs:161-184 | the tracker accepts exactly the lives that go through the states in order, each once, and may become fatal before they have stopped |
| ShutdownCoordinator.AtMostOneBroadcast | crates/rockstream-cli/src/shutdown.rs:50-60 | over every interleaving of any number of callers, at most one trigger writes `Draining` and at most one broadcast is sent |
| ShutdownCoordinator.FatalNeverWrittenIff | crates/rockstream-cli/src/shutdown.rs:74-97 | no watchdog writes `Fatal` any more if and only if none has seen the flag clear and none can |
| ShutdownCoordinator.StoppedIsFinalIff | crates/rockstream-cli/src/shutdown.rs:50-97 | `Stopped` is final if and only if besides that no trigger can still write `Draining` |
| ShutdownCoordinator.LateDrainingReopensStopped | crates/rockstream-cli/src/shutdown.rs:50-72 | a run from the start: a trigger wins the swap, completion stops the node, and the trigger's late write puts it back to `Draining` |
| ShutdownCoordinator.LateFatalReopensStopped | crates/rockstream-cli/src/shutdown.rs:67-97 | a run from the start: a watchdog looks, completion stops the node, and the watchdog's late write makes it `Fatal` |
| ShutdownCoordinator.CleanShutdownIsFinal | crates/rockstream-cli/src/shutdown.rs:67-97 | a shutdown whose winner finished and that was completed before the watchdogs looked is final |
| ShutdownCoordinator.FatalIsNeverWritten | crates/rockstream-cli/src/shutdown.rs:67-97 | when completion is marked before any watchdog looks, `Fatal` is never written, before or after |
| ShutdownCoordinator.StoppedMeansCompleted | crates/rockstream-cli/src/shutdown.rs:67-70 | nobody sees `Stopped` before completion is marked |
| Csv.ParseCsvLine | crates/rockstream-cli/src/project.rs:432-458 | the character loop computes the recursive field reader |
| Csv.FieldCount | crates/rockstream-cli/src/project.rs:432-461 | every line has one field more than it has commas preceded by an even number of quotes |
| Csv.TrimIsExact | crates/rockstream-cli/src/project.rs:450-460 | trimming takes off exactly the blanks at both ends |
| Csv.PrintedAsItIsIff | crates/rockstream-cli/src/client.rs:231-237 | a cell is quoted if and only if it has a comma, a quote or a line break character |
| Csv.PrintedRowParses | crates/rockstream-cli/src/client.rs:231-237 | any nonempty list of cells, printed and parsed, comes back trimmed, including quotes, commas and line breaks |
| CsvSeed.IngestRows | crates/rockstream-cli/src/project.rs:368-429 | batches are nonempty, at most 1000 rows, are the parsed rows in order and were all taken by the database; all rows without an error, exactly the full batches before the first row with a wrong width, or exactly those before an INSERT that was due and refused |
| CsvSeed.LineEnds | crates/rockstream-cli/src/project.rs:357-368 | a line ends with a line feed or a carriage return and a line feed, one of which is taken off, and a last line without an end is kept as it is |
| CsvSeed.TrimmedLineParses | crates/rockstream-cli/src/project.rs:369-374 | trimming a line before parsing never changes its fields |
| CsvSeed.PrintedRowIsIngestedIff | crates/rockstream-cli/src/project.rs:357-374 | a printed row is ingested as itself if and only if no cell has a line feed and it is not one unquoted blank cell |
| CsvDocument.FormatCsv | crates/rockstream-cli/src/client.rs:197-218 | the loop prints the header line and one line per row |
| CsvDocument.IngestSeed | crates/rockstream-cli/src/project.rs:352-429 | a file without a header inserts nothing; otherwise the rows after it are ingested with the header's width |
| CsvDocument.HeaderWidthIff | crates/rockstream-cli/src/project.rs:363-364 | a header declares the right number of columns if and only if no column name has a comma |
| CsvDocument.CountRowsRead | crates/rockstream-cli/src/project.rs:369-374 | without blank rows at least as many rows are read as printed, more if a cell has a line feed; without line feeds at most as many, fewer if a row is blank |
| CsvDocument.PrintedResultReadsBackIff | crates/rockstream-cli/src/client.rs:197-218 | a printed result without blank rows, or without line feeds, reads back as its trimmed rows and width if and only if it is plain: no name has a comma or a line feed, the header is not one blank name, no cell has a line feed and no row is one blank cell |
| CsvDocument.EveryRowReadsBackInPlaceIff | crates/rockstream-cli/src/client.rs:197-218 | every result: it and all its prefixes read back if and only if it is plain |
| CsvDocument.BlankRowHidesSplitRow | crates/rockstream-cli/src/client.rs:197-218 | a result of a NULL and a line feed, which is not plain and reads back all the same |
| ProjectApply.Project.constructor | crates/rockstream-cli/src/project.rs:74-84 | without a record file nothing is recorded |
| ProjectApply.Project.RunPhase | crates/rockstream-cli/src/project.rs:262-299 | one loop over steps skips recorded ones and stops at the first that is not completed |
| ProjectApply.Project.RunProject | crates/rockstream-cli/src/project.rs:248-330 | a run is the schema steps and then the seed steps: a seed is executed only after every schema file was executed or found recorded |
| ProjectApply.FinishesIff | crates/rockstream-cli/src/project.rs:248-330 | a run finishes if and only if every step that was not recorded completes |
| ProjectApply.ExecutionsAreAccounted | crates/rockstream-cli/src/project.rs:122-141 | over any history of interrupted runs of an edited project, a step was executed as often as its record was lost, plus once if it is recorded |
| ProjectApply.FinishedRunIsQuiet | crates/rockstream-cli/src/project.rs:280-330 | a finished run recorded every step, and running again executes nothing |
| ProjectApply.RecordIsAPrefix | crates/rockstream-cli/src/project.rs:248-330 | with unchanged files the record is always a prefix of the distinct steps in manifest order |
| ProjectApply.ExactlyOnceInOrderIff | crates/rockstream-cli/src/project.rs:86-120 | a project resumed until it finishes executed its steps exactly once, in order, if and only if no attempted step was lost between its execution and the end of its save |
| ProjectApply.LostStepRunsTwice | crates/rockstream-cli/src/project.rs:86-120 | a history for every step: its record is lost or torn once, the project is resumed to the end, and the step was executed twice |
| ProjectApply.SeedKeysCollideIff | crates/rockstream-cli/src/project.rs:312-313 | two seeds share a key if and only if they are equal or one table continues the other past a colon and the files make up for it |
| ProjectApply.StraddlingSeedIsSkipped | crates/rockstream-cli/src/project.rs:312-326 | a manifest whose second seed is never ingested |
| Percentile.SortIsUnique | scripts/generate-evidence-manifest.py:36-40 | sorted samples are determined by which samples they are |
| Percentile.PercentilesAreOrdered | scripts/generate-evidence-manifest.py:25-34 | minimum, percentiles and maximum are ordered like their levels |
| Percentile.PercentileInterpolates | scripts/generate-evidence-manifest.py:30-34 | which percentile it is: p of the way from the first sample to the last, on the line between the two samples there |
| Percentile.PercentileAtSample | scripts/generate-evidence-manifest.py:30-34 | the k-th of n + 1 samples is the percentile at k / n |
| Percentile.PercentileSplitsSamples | scripts/generate-evidence-manifest.py:25-34 | samples up to p of the way through are no larger than the percentile and those from there on no smaller |
| Percentile.SummaryIgnoresOrder | scripts/generate-evidence-manifest.py:36-52 | a summary does not depend on the order of the samples |
| Percentile.SummaryIsExact | scripts/generate-evidence-manifest.py:36-52 | a summary holds the levels 50, 95 and 99, the mean, the least, the greatest and the number of its samples, whatever their order |
| EvidenceGate.CheckMetric | scripts/check-release-candidate-gate.py:182-216 | each complaint is made if and only if its value is off, the count is wrong, the one sample is the target or there are no samples; none if and only if the metric is accepted |
| EvidenceGate.CheckManifest | scripts/check-release-candidate-gate.py:175-216 | no complaint if and only if there is a metric and every metric is accepted |
| EvidenceGate.AcceptedIff | scripts/check-release-candidate-gate.py:182-216 | in numbers: accepted if and only if there is a sample, every value is within a thousandth of the generator's, the count is exact and the one sample is not the target |
| EvidenceGate.ExpectedIsCalculated | scripts/check-release-candidate-gate.py:28-37 | from the same samples in any order, the gate's own sort, percentiles and mean give what the generator writes |
| EvidenceGate.GeneratedSummaryAcceptedIff | scripts/check-release-candidate-gate.py:182-216 | with the raw samples in any order, the gate accepts the generator's summary if and only if there is a sample and it is not a single one equal to the target |
| EvidenceGate.AcceptedSummaryIsOrdered | scripts/check-release-candidate-gate.py:182-211 | any accepted summary is ordered and in range up to the tolerance |
| EvidenceGate.VerdictIgnoresOrder | scripts/check-release-candidate-gate.py:182-216 | the verdict does not depend on the order of the raw samples |

## Left out

- Rdkafka, tokio, serde and the file system: represented by parameters and by an environment that answers, fails, delays or crashes at any point.
- Broker internals: the broker is what KIP-98 promises a client; control records do not occupy offsets, and retention and compaction are not modelled.
- Wall-clock deadlines: a lookup gets a finite list of polls and then its deadline passes.
- Legacy markers and handles: modelled in the sink and its machine; the disciplined runs use row envelopes only, because a marker carries no connector id and legacy recovery is not guarded by the checkpoint.
- Secret-token rotation and source offsets in the sink: counters and one direct library call.
- The size limit of an envelope, the transaction counter's overflow and the identity check of a stored cursor in the exporter: early errors that change nothing.
- The JSON text of an envelope: a payload is its bytes with the two fields that parsing yields, and how its envelope is read out of it is a function parameter.
- The order of rows inside a snapshot envelope, and 64-bit overflow of a multiplicity: multiplicities are unbounded integers.
- The exporter's two methods are modelled by which calls and writes they may make next, not as code.
- Fairness: that a way on exists is proved, not that it is taken.
- Error texts and progress messages everywhere: errors are values that say which check failed.
- UTF-8 decoding of marks, the skip-marker pattern and the set of blank characters: function parameters.
- Cargo metadata, subprocesses and services of the test inventory (`build_artifacts`, `run_job`): process orchestration.
- TargetAssignment.InventoryIsCovered: selected targets are a set of keys, not the sorted list of records the script prints.
- NodeRuntime.NodeRuntime.Start: an event names its component by position instead of by name and has no timestamp; the five component kinds differ only in name and are one kind with two failure flags.
- NodeRuntime.NodeRuntime.SendNodeEvent: nobody receives from the queue, as in the capacity argument; a receiver would only free space.
- Tracker states that no modelled transition uses, and the recovery-phase sub-states.
- CsvDocument.FormatCsv: without the timing line, which would be read back as a row.
- CsvDocument.PrintedResultReadsBackIff: leaves aside results with both a blank row and a line feed, where the vanished row and the added one can cancel out by accident; `EveryRowReadsBackInPlaceIff` covers them.
- CsvDocument.IngestSeed: column names and SQL literals are not built; only how many columns the header declares.
- ProjectApply.Project.RunPhase: a seed step that fails halfway has already inserted whole batches, which `CsvSeed.IngestRows` states; here it counts as not executed.
- The verify steps, manifest validation and the checksum's collisions: a step is identified by its checksum.
- EvidenceGate.CheckMetric: real arithmetic instead of floating point.
- The other gates of the release check and the other scripts: document linting and orchestration.
