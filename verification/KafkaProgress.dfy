/** When the exporter can go on: which states need a restart before the next epoch can be saved. */
module KafkaProgress {
  import opened Prelude
  import opened Paths
  import opened KafkaSinkMachine
  import opened KafkaBroker
  import opened KafkaProtocol
  import opened KafkaInvariant
  import opened KafkaRuns
  import opened KafkaViewDriver
  import opened KafkaTidy

  predicate Restarts(s: Step) { s.Crash? || s.Connect? }

  ghost predicate NoRestart(steps: seq<Step>) { forall i :: 0 <= i < |steps| ==> !Restarts(steps[i]) }

  /** From here the exporter can take these steps, none of them a restart, and end there. */
  ghost predicate Proceeds(x: Exporter, steps: seq<Step>, end: Exporter) {
    Continues(x, steps, end) && NoRestart(steps)
  }

  lemma Stay(x: Exporter)
    ensures Proceeds(x, [], x)
  {
  }

  lemma Take(x: Exporter, steps: seq<Step>, mid: Exporter, s: Step, next: Exporter)
    requires Continues(x, steps, mid) && Advance(mid, s) == Some(next)
    ensures Continues(x, steps + [s], next)
    ensures NoRestart(steps) && !Restarts(s) ==> NoRestart(steps + [s])
  {
    PathMore(Exporting(), x, steps, mid, s);
  }

  lemma ContinuesJoin(x: Exporter, first: seq<Step>, mid: Exporter, second: seq<Step>, end: Exporter)
    requires Continues(x, first, mid) && Continues(mid, second, end)
    ensures Continues(x, first + second, end)
    ensures NoRestart(first) && NoRestart(second) ==> NoRestart(first + second)
  {
    PathJoin(Exporting(), x, first, mid, second);
  }

  // ---- Saving the next epoch --------------------------------------------------------------------------

  function Saved(w: World, t: Epoch, payload: Payload): World {
    w.(ledger := w.ledger.(handles := w.ledger.handles[t := payload]))
  }

  lemma SaveStaged(x: Exporter) returns (end: Exporter)
    requires Sound(x) && !x.progress.pending && x.world.process.Up?
    requires x.world.process.local.pc.Ready? && x.world.process.local.pc.last.Staged?
    ensures Advance(x, Persist) == Some(end) && end.progress == Progress(x.progress.transaction + 1, true)
    ensures end.world == Saved(x.world, x.progress.transaction, x.world.process.local.pc.last.state.handle.payload)
  {
    var w, s, last := x.world, x.world.process.local.sink, x.world.process.local.pc.last;
    PersistStep(w, s, last.epoch, last.state.rows, last.state.handle);
    end := Exporter(Do(w, Persist), Progress(x.progress.transaction + 1, true));
  }

  lemma SaveFromSend(x: Exporter) returns (steps: seq<Step>, end: Exporter)
    requires Sound(x) && !x.progress.pending && x.world.process.Up? && x.world.process.local.pc.StageSend?
    ensures Proceeds(x, steps, end) && end.progress == Progress(x.progress.transaction + 1, true)
    ensures var w, pc, t := x.world, x.world.process.local.pc, x.progress.transaction;
            end.world == Saved(AtPc(w, AfterStage(w.process.local.sink, t),
                Ready(Staged(t, PreCommitted(pc.rows, pc.handle))))
                                 .(producer := w.producer.(queue := [pc.payload])), t, pc.payload)
  {
    var w, pc := x.world, x.world.process.local.pc;
    SendStep(w, w.process.local.sink, pc.epoch, pc.rows, pc.payload, pc.handle);
    var x1 := Exporter(Do(w, Quietly(Send(true))), x.progress);
    Stay(x);
    Take(x, [], x, Quietly(Send(true)), x1);
    StepKeepsSound(x, Quietly(Send(true)));
    end := SaveStaged(x1);
    steps := [] + [Quietly(Send(true))] + [Persist];
    Take(x, [] + [Quietly(Send(true))], x1, Persist, end);
  }

  lemma SaveFromBegin(x: Exporter) returns (steps: seq<Step>, end: Exporter)
    requires Sound(x) && !x.progress.pending && x.world.process.Up? && x.world.process.local.pc.StageBegin?
    requires x.world.producer.current.None?
    ensures Proceeds(x, steps, end) && end.progress == Progress(x.progress.transaction + 1, true)
    ensures var w, pc, t := x.world, x.world.process.local.pc, x.progress.transaction;
            end.world == Saved(AtPc(w, AfterStage(w.process.local.sink, t),
                Ready(Staged(t, PreCommitted(pc.rows, pc.handle))))
                                 .(broker := BeginOwn(w.broker, t, pc.payload),
                                   producer := Producer(Some(|w.broker.txns|), [pc.payload])), t, pc.payload)
  {
    var w, pc := x.world, x.world.process.local.pc;
    BeginStep(w, w.process.local.sink, pc.epoch, pc.rows, pc.payload, pc.handle);
    var x1 := Exporter(Do(w, Quietly(Begin(true))), x.progress);
    Stay(x);
    Take(x, [], x, Quietly(Begin(true)), x1);
    StepKeepsSound(x, Quietly(Begin(true)));
    var rest;
    rest, end := SaveFromSend(x1);
    steps := ([] + [Quietly(Begin(true))]) + rest;
    ContinuesJoin(x, [] + [Quietly(Begin(true))], x1, rest, end);
  }

  /** Between calls, with nothing held and the next epoch not staged. */
  ghost predicate Resting(x: Exporter) {
    && Sound(x) && !x.progress.pending && x.world.process.Up? && x.world.process.local.pc.Ready?
    && x.world.producer.current.None? && x.progress.transaction !in x.world.process.local.sink.staged
  }

  lemma SaveFromIdle(x: Exporter, payload: Payload) returns (steps: seq<Step>, end: Exporter)
    requires Resting(x) && Is(payload.connector, x.world.me) && Is(payload.epoch, x.progress.transaction)
    ensures Proceeds(x, steps, end) && end.progress == Progress(x.progress.transaction + 1, true)
    ensures var w, t := x.world, x.progress.transaction;
            var state := PreCommitted(0, RowHandle(w.me, w.topic, t, payload));
            end.world == Saved(AtPc(w, AfterStage(w.process.local.sink, t), Ready(Staged(t, state)))
                                 .(broker := BeginOwn(w.broker, t, payload),
                                   producer := Producer(Some(|w.broker.txns|), [payload])), t, payload)
  {
    var w, t, l := x.world, x.progress.transaction, x.world.process.local;
    var call := Quietly(PreCommitPayloadCall(t, 0, payload));
    StageStep(w, l.sink, l.pc.last, t, payload);
    var x1 := Exporter(Do(w, call), x.progress);
    Stay(x);
    Take(x, [], x, call, x1);
    StepKeepsSound(x, call);
    var rest;
    rest, end := SaveFromBegin(x1);
    steps := ([] + [call]) + rest;
    ContinuesJoin(x, [] + [call], x1, rest, end);
  }

  lemma SaveFromAbort(x: Exporter) returns (steps: seq<Step>, end: Exporter)
    requires Sound(x) && !x.progress.pending && x.world.process.Up? && x.world.process.local.pc.StageAbort?
    ensures Proceeds(x, steps, end) && end.progress == Progress(x.progress.transaction + 1, true)
  {
    var w, b, t := x.world, x.world.broker, x.progress.transaction;
    assert OwnTxnOk(b, w.producer, w.ledger, w.horizon, w.producer.current.value);
    StageAbortStep(w, w.process.local.sink, t);
    var x1 := Exporter(Do(w, Quietly(AbortTxn(true))), x.progress);
    Stay(x);
    Take(x, [], x, Quietly(AbortTxn(true)), x1);
    StepKeepsSound(x, Quietly(AbortTxn(true)));
    var rest;
    rest, end := SaveFromIdle(x1, Payload(Some(w.me), Some(t), Text("")));
    steps := ([] + [Quietly(AbortTxn(true))]) + rest;
    ContinuesJoin(x, [] + [Quietly(AbortTxn(true))], x1, rest, end);
  }

  // ---- When no restart is needed ---------------------------------------------------------------------

  /** Some way on, without a restart, saves another epoch. */
  ghost predicate CanSave(x: Exporter) {
    exists steps, end :: Proceeds(x, steps, end)
        && end.progress.transaction > x.progress.transaction
  }

  /** With nothing pending: the process is up, and the next epoch is staged but not saved, or about to be sent, or
      about to be aborted, or the producer holds no transaction and the sink has not staged the epoch. */
  predicate Free(x: Exporter) {
    var w := x.world;
    w.process.Up? &&
    match w.process.local.pc
    case Ready(last) =>
      last.Staged? || (w.producer.current.None? && x.progress.transaction !in w.process.local.sink.staged)
    case StageBegin(_, _, _, _) => w.producer.current.None?
    case StageSend(_, _, _, _) => true
    case StageAbort(_) => true
    case _ => false
  }

  lemma FreeCanSave(x: Exporter) returns (steps: seq<Step>, end: Exporter)
    requires Sound(x) && !x.progress.pending && Free(x)
    ensures Proceeds(x, steps, end) && end.progress == Progress(x.progress.transaction + 1, true)
  {
    var pc := x.world.process.local.pc;
    if pc.StageBegin? {
      steps, end := SaveFromBegin(x);
    } else if pc.StageSend? {
      steps, end := SaveFromSend(x);
    } else if pc.StageAbort? {
      steps, end := SaveFromAbort(x);
    } else if pc.last.Staged? {
      end := SaveStaged(x);
      steps := [] + [Persist];
      Stay(x);
      Take(x, [], x, Persist, end);
    } else {
      steps, end := SaveFromIdle(x, Payload(Some(x.world.me), Some(x.progress.transaction), Text("")));
    }
  }

  /** A call made while not free fails or waits for a transaction that cannot begin. */
  lemma ClientStaysStuck(x: Exporter, s: Step)
    requires Sound(x) && !x.progress.pending && !Free(x) && s.Client? && Advance(x, s).Some?
    ensures !Free(Advance(x, s).value)
  {
    assert x.world.process.local.pc.Ready? || x.world.process.local.pc.StageBegin?;
  }

  lemma OtherStaysStuck(x: Exporter, s: Step)
    requires Sound(x) && !x.progress.pending && !Free(x) && !s.Client? && !Restarts(s) && Advance(x, s).Some?
    ensures !Free(Advance(x, s).value) && Advance(x, s).value.progress == x.progress
  {
  }

  lemma {:induction false} StuckStays(x: Exporter, steps: seq<Step>, end: Exporter)
    requires Sound(x) && !x.progress.pending && !Free(x) && Proceeds(x, steps, end)
    ensures end.progress == x.progress && !Free(end) && Sound(end)
    decreases |steps|
  {
    if steps != [] {
      var front, s := steps[..|steps| - 1], steps[|steps| - 1];
      var before := Path(Exporting(), x, front).value;
      StuckStays(x, front, before);
      StepKeepsSound(before, s);
      if s.Client? { ClientStaysStuck(before, s); } else { OtherStaysStuck(before, s); }
    }
  }

  /** Exactly when the exporter, with nothing pending, can save the next epoch without a restart.  The failing states
      are those after an epoch was staged and not saved, or an abort of a failed staging did not get through. */
  lemma NoRestartNeededIff(x: Exporter)
    requires Sound(x) && !x.progress.pending
    ensures CanSave(x) <==> Free(x)
  {
    if Free(x) {
      var steps, end := FreeCanSave(x);
    } else {
      forall steps, end | Proceeds(x, steps, end)
        ensures end.progress.transaction == x.progress.transaction
      {
        StuckStays(x, steps, end);
      }
    }
  }
}
