/** Where the guarantees stop: runs of the exporter from an empty topic that lead just outside the main theorems. */
module KafkaCounterexamples {
  import opened Prelude
  import opened Paths
  import opened KafkaSinkMachine
  import opened KafkaBroker
  import opened KafkaProtocol
  import opened KafkaInvariant
  import opened KafkaExactlyOnce
  import opened KafkaRuns
  import opened KafkaViewDriver
  import opened KafkaTidy
  import opened KafkaProgress
  import opened KafkaRecovery
  import opened KafkaRestart
  import opened KafkaUninterrupted

  const ENVELOPE := Payload(Some(7), Some(0), Text("rows"))
  const OTHER := Payload(Some(8), Some(0), Text("other"))
  const MARKER := Payload(None, Some(0), Marker(1))

  /** Connector 7 exports to a topic of one partition. */
  function Empty1(): Exporter { Start(7, "view", 1) }

  const SINK := FreshSink(7, Some("view"))

  /** A run of the exporter from the empty topic. */
  ghost predicate Ran(run: seq<Step>, x: Exporter) { DriverRun(Initial(7, "view", 1), run) == Some(x) }

  lemma RanOn(run: seq<Step>, x: Exporter, more: seq<Step>, end: Exporter)
    requires Ran(run, x) && Continues(x, more, end)
    ensures Ran(run + more, end)
  {
    PathJoin(Exporting(), Empty1(), run, x, more);
  }

  lemma RanStep(run: seq<Step>, x: Exporter, s: Step, end: Exporter)
    requires Ran(run, x) && Advance(x, s) == Some(end)
    ensures Ran(run + [s], end)
  {
    PathMore(Exporting(), Empty1(), run, x, s);
  }

  lemma TakeTwo(x: Exporter, a: Step, mid: Exporter, b: Step, end: Exporter)
    requires Advance(x, a) == Some(mid) && Advance(mid, b) == Some(end)
    ensures Continues(x, [a, b], end)
  {
    Stay(x);
    Take(x, [], x, a, mid);
    Take(x, [] + [a], mid, b, end);
    assert [] + [a] + [b] == [a, b];
  }

  lemma RanIsSound(run: seq<Step>, x: Exporter)
    requires Ran(run, x)
    ensures Sound(x) && Reached(x.world, 7, "view", 1, run)
  {
    DriverRunIsSound(7, "view", 1, run);
    DriverRunIsDisciplined(7, "view", 1, run);
  }

  /** Connected for the first time. */
  lemma FirstConnect() returns (run: seq<Step>, x: Exporter)
    ensures Ran(run, x) && Sound(x) && x.progress == Progress(0, false)
    ensures x.world == Empty1().world.(process := Up(Local(SINK, Ready(NoCall)), Consumer([], [], [])))
  {
    x := Exporter(DoConnect(Empty1().world, false), Progress(0, false));
    run := [] + [Connect(false)];
    RanStep([], Empty1(), Connect(false), x);
    RanIsSound(run, x);
  }

  /** Epoch 0 staged and saved, and then a crash. */
  lemma SavedAndCrashed() returns (run: seq<Step>, x: Exporter)
    ensures Ran(run, x) && Sound(x) && x.progress == Progress(1, true)
    ensures x.world == World(7, "view", Broker([[]], [Txn(Some(Label(0, ENVELOPE)), Open(false), None)]),
                             Producer(Some(0), [ENVELOPE]), Down, Ledger(map[0 := ENVELOPE], {}), 0)
  {
    var first, x1 := FirstConnect();
    var second, x2 := SaveFromIdle(x1, ENVELOPE);
    RanOn(first, x1, second, x2);
    x := x2.(world := x2.world.(process := Down));
    run := (first + second) + [Crash];
    RanStep(first + second, x2, Crash, x);
    RanIsSound(run, x);
    assert x.world.broker.logs == [[]] && x.world.ledger.handles == map[0 := ENVELOPE];
  }

  /** And then a reconnect, which drops the leftover transaction. */
  lemma SavedAndReconnected() returns (run: seq<Step>, x: Exporter)
    ensures Ran(run, x) && Sound(x) && x.progress == Progress(1, true)
    ensures x.world == World(7, "view", Broker([[]], [Txn(Some(Label(0, ENVELOPE)), Dropped, None)]),
                             Producer(None, []), Up(Local(SINK, Ready(NoCall)), Consumer([], [], [])),
                             Ledger(map[0 := ENVELOPE], {}), 0)
  {
    var first, x1 := SavedAndCrashed();
    x := Exporter(DoConnect(x1.world, false), x1.progress);
    run := first + [Connect(false)];
    RanStep(first, x1, Connect(false), x);
    RanIsSound(run, x);
    assert x.world.broker.txns == [Txn(Some(Label(0, ENVELOPE)), Dropped, None)];
  }

  // ---- A transaction open at the first watermark ------------------------------------------------------

  /** The world of a lookup while another producer's record, in transaction 1, stands first in the partition. */
  function Between(status: Status): World {
    World(7, "view", Broker([[Entry(1, OTHER)]],
        [Txn(Some(Label(0, ENVELOPE)), Dropped, None), Txn(None, status, None)]),
          Producer(None, []), Up(Local(SINK, Ready(NoCall)), Consumer([], [], [])), Ledger(map[0 := ENVELOPE], {}), 0)
  }

  function LookAt(scan: Scan, highs: seq<nat>): Look {
    Look(SINK, 0, ENVELOPE, scan, Consumer(highs, [], [0]))
  }

  lemma OneEntry(b: Broker)
    requires b.logs == [[]]
    ensures AppendForeign(b, 1, 0, OTHER).logs == [[Entry(1, OTHER)]]
  {
    assert b.logs[0] + [Entry(1, OTHER)] == [Entry(1, OTHER)];
    assert b.logs[0 := [Entry(1, OTHER)]] == [[Entry(1, OTHER)]];
  }

  /** Another producer's open record arrives. */
  lemma OthersRecord() returns (run: seq<Step>, x: Exporter)
    ensures Ran(run, x) && x == Exporter(Between(Open(false)), Progress(1, true))
  {
    var first, x1 := SavedAndReconnected();
    var x2 := x1.(world := x1.world.(broker := BeginForeign(x1.world.broker)));
    RanStep(first, x1, ForeignBegin, x2);
    OneEntry(x2.world.broker);
    assert x2.world.broker.txns == Between(Open(false)).broker.txns;
    x := Exporter(Between(Open(false)), Progress(1, true));
    run := first + [ForeignBegin] + [ForeignAppend(1, 0, OTHER)];
    RanStep(first + [ForeignBegin], x2, ForeignAppend(1, 0, OTHER), x);
  }

  /** And the recovery of epoch 0 is about to read the watermarks. */
  lemma BeforeWatermarks() returns (run: seq<Step>, x: Exporter)
    ensures Ran(run, x)
    ensures x == Exporter(Looking(Between(Open(false)), LookAt(Capture(1, map[], 0, None), [])), Progress(1, true))
  {
    var x3;
    run, x3 := OthersRecord();
    var w := Between(Open(false));
    CheckpointStep(w, SINK, NoCall, 0);
    RanStep(run, x3, Quietly(SetClusterCommitted(0)), x3);
    run := run + [Quietly(SetClusterCommitted(0))];
    RecoverCallStep(w, SINK, NoCall, 0, ENVELOPE);
    var call := Quietly(RecoverCall(0, RowHandle(7, "view", 0, ENVELOPE)));
    assert seq(1, _ => 0) == [0];
    var x4 := Exporter(Looking(w, LookAt(Setup, [])), Progress(1, true));
    RanStep(run, x3, call, x4);
    run := run + [call];
    MetadataStep(w, LookAt(Setup, []));
    x := Exporter(Looking(w, LookAt(Capture(1, map[], 0, None), [])), Progress(1, true));
    RanStep(run, x4, Quietly(Metadata(1)), x);
    run := run + [Quietly(Metadata(1))];
  }

  lemma ReadHigh(x: Exporter) returns (end: Exporter)
    requires x == Exporter(Looking(Between(Open(false)), LookAt(Capture(1, map[], 0, None), [])), Progress(1, true))
    ensures Advance(x, Quietly(High(1))) == Some(end)
    ensures end == Exporter(Looking(Between(Open(false)), LookAt(Capture(1, map[], 0, Some(1)), [1])),
        Progress(1, true))
  {
    HighStep(Between(Open(false)), LookAt(Capture(1, map[], 0, None), []), 1);
    assert [] + [1] == [1];
    end := Exporter(Looking(Between(Open(false)), LookAt(Capture(1, map[], 0, Some(1)), [1])), Progress(1, true));
  }

  lemma TimeOut(x: Exporter) returns (end: Exporter)
    requires x == Exporter(Looking(Between(Open(false)), LookAt(Capture(1, map[], 0, Some(1)), [1])), Progress(1, true))
    ensures Advance(x, Settle(1, false)) == Some(end)
    ensures end == Exporter(Looking(Between(Dropped), LookAt(Capture(1, map[], 0, Some(1)), [1])), Progress(1, true))
  {
    SettleStep(x, 1);
    var b := x.world.broker;
    assert b.txns[1 := b.txns[1].(status := Dropped)] == Between(Dropped).broker.txns;
    end := Exporter(Looking(Between(Dropped), LookAt(Capture(1, map[], 0, Some(1)), [1])), Progress(1, true));
  }

  lemma ReadStableAndEnd(x: Exporter) returns (mid: Exporter, end: Exporter)
    requires x == Exporter(Looking(Between(Dropped), LookAt(Capture(1, map[], 0, Some(1)), [1])), Progress(1, true))
    ensures Advance(x, Quietly(Stable(1))) == Some(mid) && Advance(mid, EofAt(0, 1)) == Some(end)
    ensures end.world.process.Up? && end.world.process.local.pc == RecoverBegin(0, ENVELOPE)
  {
    var w, k := Between(Dropped), LookAt(Capture(1, map[], 0, Some(1)), [1]);
    assert ResolvedBelow(w.broker, 0, 1);
    StableStep(w, k, 1);
    assert map[][0 := true] == map[0 := true] && [] + [1] == [1];
    var k1 := Look(SINK, 0, ENVELOPE, Polling(map[0 := true]), Consumer([1], [1], [0]));
    mid := Exporter(Looking(w, k1), Progress(1, true));
    assert NothingLanded(w.broker, 0, 0, 1);
    EofStep(w, k1, 0, 1);
    assert map[0 := true] - {0} == map[];
    end := Exporter(Do(mid.world, EofAt(0, 1)), Progress(1, true));
  }

  /** A transaction unresolved when the high watermark is read does not by itself make the lookup inconclusive: if it
      times out before the stable offset is read, "absent" is a possible, and correct, answer. */
  lemma UnresolvedAtHighCaptureMayStillAnswerAbsent() returns (run: seq<Step>, x: Exporter, end: Exporter)
    ensures Ran(run, x) && Reached(x.world, 7, "view", 1, run)
    ensures InRange(x.world.broker, 0, 0) && StatusAt(x.world.broker, 0, 0).Open?
    ensures Continues(x, [Quietly(High(1)), Settle(1, false), Quietly(Stable(1)), EofAt(0, 1)], end)
    ensures end.world.process.Up? && end.world.process.local.pc == RecoverBegin(0, ENVELOPE)
  {
    run, x := BeforeWatermarks();
    RanIsSound(run, x);
    var x1 := ReadHigh(x);
    var x2 := TimeOut(x1);
    var x3;
    x3, end := ReadStableAndEnd(x2);
    TakeTwo(x, Quietly(High(1)), x1, Settle(1, false), x2);
    TakeTwo(x2, Quietly(Stable(1)), x3, EofAt(0, 1), end);
    ContinuesJoin(x, [Quietly(High(1)), Settle(1, false)], x2, [Quietly(Stable(1)), EofAt(0, 1)], end);
    assert [Quietly(High(1)), Settle(1, false)] + [Quietly(Stable(1)), EofAt(0, 1)]
        == [Quietly(High(1)), Settle(1, false), Quietly(Stable(1)), EofAt(0, 1)];
  }

  // ---- A recovery whose send fails ----------------------------------------------------------------------

  /** The recovery left an empty transaction of epoch 0 open: the sink did not abort it. */
  predicate LeftEmpty(w: World) {
    && w.process.Up? && w.process.local == Local(SINK, Ready(Failed(CommitFailed)))
    && w.broker.logs == [[]] && w.producer == Producer(Some(1), [])
    && |w.broker.txns| == 2 && w.broker.txns[1] == Txn(Some(Label(0, ENVELOPE)), Open(false), None)
    && w.ledger == Ledger(map[0 := ENVELOPE], {})
  }

  /** The lookup of epoch 0 in the empty topic ends in "absent". */
  lemma AbsentInEmptyTopic() returns (run: seq<Step>, x: Exporter)
    ensures Ran(run, x) && SinkAt(x.world, SINK, RecoverBegin(0, ENVELOPE)) && x.progress == Progress(1, true)
    ensures x.world.broker == Broker([[]], [Txn(Some(Label(0, ENVELOPE)), Dropped, None)])
    ensures x.world.producer == Producer(None, []) && x.world.ledger == Ledger(map[0 := ENVELOPE], {})
  {
    var first, x1 := SavedAndReconnected();
    var second, x2, w, k := StartLookup(x1, 0);
    RanOn(first, x1, second, x2);
    var third;
    assert NothingMatches(w.broker, w.me, 0);
    NothingMatchesIsClear(w.broker, w.me, 0, k.scan, k.consumer);
    third, x := EndLookup(x2, w, k);
    run := (first + second) + third;
    RanOn(first + second, x2, third, x);
  }

  /** An exporter run in which a recovery's `send` fails and leaves an empty transaction open. */
  lemma FailedRecoverySendIsReal() returns (run: seq<Step>, x: Exporter)
    ensures Ran(run, x) && Reached(x.world, 7, "view", 1, run) && LeftEmpty(x.world) && x.progress == Progress(1, true)
  {
    var first, x1 := AbsentInEmptyTopic();
    RecoverBeginStep(x1.world, SINK, 0, ENVELOPE);
    var x2 := Exporter(Do(x1.world, Quietly(Begin(true))), x1.progress);
    RanStep(first, x1, Quietly(Begin(true)), x2);
    RecoverSendStep(x2.world, SINK, 0, ENVELOPE, false);
    x := Exporter(Do(x2.world, Quietly(Send(false))), x1.progress);
    run := first + [Quietly(Begin(true))] + [Quietly(Send(false))];
    RanStep(first + [Quietly(Begin(true))], x2, Quietly(Send(false)), x);
    RanIsSound(run, x);
  }

  const COMMIT_IT := Quietly(CommitCall(0, PreCommitted(0, RowHandle(7, "view", 0, ENVELOPE)), false))

  /** A driver that commits that transaction, although it names its epoch, marks the epoch delivered with no record in
      the topic. */
  lemma CommitOfUnloadedTransactionLosesTheEpoch() returns (run: seq<Step>, x: Exporter, end: World)
    ensures Ran(run, x) && Reached(x.world, 7, "view", 1, run) && LeftEmpty(x.world)
    ensures Run(x.world, [COMMIT_IT, Quietly(CommitTxn(true))]) == Some(end)
    ensures end.process.Up? && end.process.local.pc == Ready(Delivered(0)) && 0 in end.process.local.sink.delivered
    ensures end.broker.logs == [[]]
  {
    run, x := FailedRecoverySendIsReal();
    var w := x.world;
    CommitCallStep(w, SINK, Failed(CommitFailed), 0, PreCommitted(0, RowHandle(7, "view", 0, ENVELOPE)));
    RunMore(w, [], w, COMMIT_IT);
    var w1 := Do(w, COMMIT_IT);
    CommitAnswerStep(w1, SINK, 0);
    end := Do(w1, Quietly(CommitTxn(true)));
    RunMore(w, [] + [COMMIT_IT], w1, Quietly(CommitTxn(true)));
    assert [] + [COMMIT_IT] + [Quietly(CommitTxn(true))] == [COMMIT_IT, Quietly(CommitTxn(true))];
  }

  /** And the exporter, which does not commit it, cannot confirm the epoch without a restart, but after one it can. */
  lemma FailedSendNeedsARestart() returns (run: seq<Step>, x: Exporter)
    ensures Ran(run, x) && LeftEmpty(x.world) && x.progress == Progress(1, true)
    ensures !CanConfirmHere(x) && CanConfirm(x)
  {
    run, x := FailedRecoverySendIsReal();
    RanIsSound(run, x);
    assert NothingMatches(x.world.broker, 7, 0);
    PendingNeedsNoRestartIff(x, 0);
    PendingCanBeConfirmedIff(x, 0);
  }

  // ---- A marker of another producer -------------------------------------------------------------------

  /** An exporter run after which its pending epoch can never be confirmed: a committed record of the same epoch
      number without a connector id is in the topic. */
  lemma MarkerBlocksForEver() returns (run: seq<Step>, x: Exporter)
    ensures Ran(run, x) && Reached(x.world, 7, "view", 1, run) && x.progress == Progress(1, true)
        && x.world.process.Down?
    ensures !CanConfirm(x)
  {
    var first, x1 := SavedAndCrashed();
    var x2 := x1.(world := x1.world.(broker := BeginForeign(x1.world.broker)));
    RanStep(first, x1, ForeignBegin, x2);
    var x3 := x2.(world := x2.world.(broker := AppendForeign(x2.world.broker, 1, 0, MARKER)));
    RanStep(first + [ForeignBegin], x2, ForeignAppend(1, 0, MARKER), x3);
    x := x3.(world := x3.world.(broker := SetStatus(x3.world.broker, 1, Landed)));
    RanStep(first + [ForeignBegin] + [ForeignAppend(1, 0, MARKER)], x3, Settle(1, true), x);
    run := first + [ForeignBegin] + [ForeignAppend(1, 0, MARKER)] + [Settle(1, true)];
    RanIsSound(run, x);
    assert MatchAt(x.world.broker, 7, 0, 0, 0);
    PendingCanBeConfirmedIff(x, 0);
  }

  // ---- An epoch staged and not saved ------------------------------------------------------------------

  const STAGE_IT := Quietly(PreCommitPayloadCall(0, 0, ENVELOPE))

  /** Epoch 0 staged, and not saved. */
  lemma StagedOnly() returns (run: seq<Step>, x: Exporter)
    ensures Ran(run, x) && x.progress == Progress(0, false) && x.world.process.Up?
    ensures x.world.process.local ==
              Local(AfterStage(SINK, 0), Ready(Staged(0, PreCommitted(0, RowHandle(7, "view", 0, ENVELOPE)))))
  {
    var handle := RowHandle(7, "view", 0, ENVELOPE);
    var first, x1 := FirstConnect();
    StageStep(x1.world, SINK, NoCall, 0, ENVELOPE);
    var x2 := Exporter(Do(x1.world, STAGE_IT), x1.progress);
    RanStep(first, x1, STAGE_IT, x2);
    BeginStep(x2.world, SINK, 0, 0, ENVELOPE, handle);
    var x3 := Exporter(Do(x2.world, Quietly(Begin(true))), x1.progress);
    RanStep(first + [STAGE_IT], x2, Quietly(Begin(true)), x3);
    SendStep(x3.world, SINK, 0, 0, ENVELOPE, handle);
    x := Exporter(Do(x3.world, Quietly(Send(true))), x1.progress);
    run := first + [STAGE_IT] + [Quietly(Begin(true))];
    RanStep(run, x3, Quietly(Send(true)), x);
    run := run + [Quietly(Send(true))];
  }

  /** An exporter run that ends between calls with nothing pending, and from which nothing is saved any more without a
      restart: the epoch was staged, its cursor was not saved, and every further staging is refused. */
  lemma UnsavedEpochNeedsARestart() returns (run: seq<Step>, x: Exporter)
    ensures Ran(run, x) && !x.progress.pending && x.world.process.Up?
    ensures x.world.process.local.pc == Ready(Failed(PreCommitFailed)) && !CanSave(x)
  {
    var first, x1 := StagedOnly();
    x := Exporter(AtPc(x1.world, AfterStage(SINK, 0), Ready(Failed(PreCommitFailed))), x1.progress);
    RanStep(first, x1, STAGE_IT, x);
    run := first + [STAGE_IT];
    RanIsSound(run, x);
    NoRestartNeededIff(x);
  }
}
