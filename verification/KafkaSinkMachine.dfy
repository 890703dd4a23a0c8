/**
 The Kafka sink as a transition system.

 `Local` is everything one `KafkaSink` object knows: its fields and where it is inside the call
 it is executing.  `Next` advances it by one event.  An event is either a call made by the driver or
 the answer of one broker request, so a crash can be placed between any two broker requests simply
 by stopping after any event.
 */
module KafkaSinkMachine {
  import opened Prelude

  type Epoch = nat

  /** KAFKA_SINK_MAX_STAGED_EPOCHS */
  const MAX_STAGED_EPOCHS: nat := 5

  /** The bytes of a record.  `Marker` is the legacy epoch/count text. */
  datatype Body = Text(text: string) | Marker(rows: nat)

  /** A record payload together with what parsing it as JSON yields.  A payload that is not JSON, or whose
      field is missing or not an unsigned integer, has `None` there.  Equality is equality of bytes. */
  datatype Payload = Payload(connector: Option<nat>, epoch: Option<Epoch>, body: Body)

  /** The recovery handle persisted with the cluster checkpoint.  `BrokenRowHandle` starts with '{' but
      does not decode; `LegacyHandle` is anything that does not start with '{'. */
  datatype Handle =
    | RowHandle(connector: nat, topic: string, epoch: Epoch, payload: Payload)
    | BrokenRowHandle
    | LegacyHandle(rows: nat)

  datatype SinkState = Idle | PreCommitted(rows: nat, handle: Handle) | Committed

  datatype SinkError = PreCommitFailed | CommitFailed | DeliveryUnknown | Io

  /** What the last finished call returned. */
  datatype Outcome =
    | NoCall
    | Noop
    | Staged(epoch: Epoch, state: SinkState)
    | Delivered(epoch: Epoch)
    | Discarded(epoch: Epoch)
    | Failed(error: SinkError)

  /** The fields of a `KafkaSink`.  `topic` is `None` for the simulation sink that has no broker. */
  datatype Sink = Sink(
    connector: nat,
    topic: Option<string>,
    delivered: set<Epoch>,
    staged: set<Epoch>,
    maxStaged: nat,
    count: nat,
    clusterCommitted: Epoch)

  function FreshSink(connector: nat, topic: Option<string>): Sink {
    Sink(connector, topic, {}, {}, MAX_STAGED_EPOCHS, 0, 0)
  }

  /** Progress of one topic lookup.  `unsettled` is the source's `partitions` map: partition to
      "was stable through the captured high watermark". */
  datatype Scan =
    | Setup
    | Capture(total: nat, unsettled: map<nat, bool>, next: nat, high: Option<nat>)
    | Polling(unsettled: map<nat, bool>)

  datatype PollResult =
    | Message(partition: nat, offset: nat, payload: Payload)
    | Eof(partition: nat)
    | PollError
    | Nothing

  datatype Pc =
    | Ready(last: Outcome)
    | StageBegin(epoch: Epoch, rows: nat, payload: Payload, handle: Handle)
    | StageSend(epoch: Epoch, rows: nat, payload: Payload, handle: Handle)
    | StageAbort(epoch: Epoch)
    | ForcedAbort(epoch: Epoch)
    | CommitOpen(epoch: Epoch)
    | AbortOpen(epoch: Epoch)
    | Lookup(epoch: Epoch, expected: Option<Payload>, resend: Payload, scan: Scan)
    | RecoverBegin(epoch: Epoch, payload: Payload)
    | RecoverSend(epoch: Epoch, payload: Payload)
    | RecoverCommit(epoch: Epoch, payload: Payload)
    | Halted

  datatype Local = Local(sink: Sink, pc: Pc)

  datatype Event =
    // Calls.  `fault` says whether the injected transaction timeout fires in this commit.
    | PreCommitPayloadCall(epoch: Epoch, rows: nat, payload: Payload)
    | PreCommitCall(epoch: Epoch, rows: nat)
    | CommitCall(epoch: Epoch, state: SinkState, fault: bool)
    | AbortCall(epoch: Epoch)
    | NoopRecoverCall
    | RecoverCall(epoch: Epoch, handle: Handle)
    | SetClusterCommitted(epoch: Epoch)
    // Broker answers.
    | Begin(ok: bool)
    | Send(ok: bool)
    | CommitTxn(ok: bool)
    | AbortTxn(ok: bool)
    | SetupFailed
    | Metadata(partitions: nat)
    | High(offset: nat)
    | Stable(offset: nat)
    | Poll(result: PollResult)
    | DeadlinePassed

  predicate BackpressureActive(s: Sink) { s.count >= s.maxStaged }

  predicate Is(field: Option<nat>, n: nat) { field.Some? && field.value == n }

  predicate ValidPayload(s: Sink, epoch: Epoch, payload: Payload) {
    Is(payload.epoch, epoch) && Is(payload.connector, s.connector)
  }

  /** The record filter of the lookup: a foreign connector id never matches, a missing one may. */
  predicate Matches(connector: nat, epoch: Epoch, payload: Payload) {
    (payload.connector.None? || Is(payload.connector, connector)) && Is(payload.epoch, epoch)
  }

  function Decrement(n: nat): nat { if n > 0 then n - 1 else 0 }

  /** The bookkeeping of `commit`: the counter drops even when the epoch was not staged. */
  function AfterCommit(s: Sink, epoch: Epoch): Sink {
    s.(delivered := s.delivered + {epoch}, staged := s.staged - {epoch}, count := Decrement(s.count))
  }

  function AfterAbort(s: Sink, epoch: Epoch): Sink {
    s.(staged := s.staged - {epoch}, count := Decrement(s.count))
  }

  /** The bookkeeping of `recover`: the counter drops only when the epoch was staged. */
  function AfterRecover(s: Sink, epoch: Epoch): Sink {
    s.(delivered := s.delivered + {epoch}, staged := s.staged - {epoch},
       count := if epoch in s.staged then Decrement(s.count) else s.count)
  }

  function AfterStage(s: Sink, epoch: Epoch): Sink {
    s.(staged := s.staged + {epoch}, count := s.count + 1)
  }

  /** Entry of `stage_payload`. */
  function EnterStage(s: Sink, epoch: Epoch, rows: nat, payload: Payload, handle: Handle): Local {
    if BackpressureActive(s) || epoch in s.staged then
      Local(s, Ready(Failed(PreCommitFailed)))
    else if s.topic.None? then
      Local(AfterStage(s, epoch), Ready(Staged(epoch, PreCommitted(rows, handle))))
    else
      Local(s, StageBegin(epoch, rows, payload, handle))
  }

  /** Entry of `commit`; the two halting guards come first. */
  function EnterCommit(s: Sink, epoch: Epoch, state: SinkState, fault: bool): Local {
    if s.clusterCommitted < epoch || epoch in s.delivered then
      Local(s, Halted)
    else if state.Idle? then
      Local(s, Ready(Failed(CommitFailed)))
    else if fault then
      Local(s, if s.topic.None? then Ready(Failed(CommitFailed)) else ForcedAbort(epoch))
    else if s.topic.None? then
      Local(AfterCommit(s, epoch), Ready(Delivered(epoch)))
    else
      Local(s, CommitOpen(epoch))
  }

  function EnterAbort(s: Sink, epoch: Epoch): Local {
    if s.topic.None? then Local(AfterAbort(s, epoch), Ready(Discarded(epoch))) else Local(s, AbortOpen(epoch))
  }

  /** Entry of `recover` for `RerunCommit`.  Row handles are guarded by the checkpoint and checked for
      identity; legacy handles are neither. */
  function EnterRecover(s: Sink, epoch: Epoch, handle: Handle): Local {
    match handle
    case BrokenRowHandle =>
      if s.clusterCommitted < epoch then Local(s, Halted) else Local(s, Ready(Failed(Io)))
    case RowHandle(connector, topic, e, payload) =>
      if s.clusterCommitted < epoch then Local(s, Halted)
      else if connector != s.connector || e != epoch || s.topic.None? || topic != s.topic.value
          || !ValidPayload(s, epoch, payload) then
        Local(s, Ready(Failed(Io)))
      else Local(s, Lookup(epoch, Some(payload), payload, Setup))
    case LegacyHandle(rows) =>
      if s.topic.None? then Local(AfterRecover(s, epoch), Ready(Delivered(epoch)))
      else Local(s, Lookup(epoch, None, Payload(None, Some(epoch), Marker(rows)), Setup))
  }

  /** One event inside the lookup. */
  function NextLookup(l: Local, ev: Event): Option<Local>
    requires l.pc.Lookup?
  {
    var Lookup(epoch, expected, resend, scan) := l.pc;
    var unknown := Some(Local(l.sink, Ready(Failed(DeliveryUnknown))));
    match scan
    case Setup =>
      (match ev
       case SetupFailed => unknown
       case Metadata(n) =>
         if n == 0 then unknown else Some(Local(l.sink, l.pc.(scan := Capture(n, map[], 0, None))))
       case _ => None)
    case Capture(total, unsettled, next, high) =>
      (match ev
       case SetupFailed => unknown
       case High(h) =>
         if high.None? then Some(Local(l.sink, l.pc.(scan := scan.(high := Some(h))))) else None
       case Stable(stable) =>
         if high.None? then None
         else
           var settled := unsettled[next := stable >= high.value];
           Some(Local(l.sink, l.pc.(scan :=
             if next + 1 == total then Polling(settled) else Capture(total, settled, next + 1, None))))
       case _ => None)
    case Polling(unsettled) =>
      (match ev
       case DeadlinePassed => unknown
       case Poll(PollError) => unknown
       case Poll(Nothing) => Some(l)
       case Poll(Message(_, _, payload)) =>
         if !Matches(l.sink.connector, epoch, payload) then Some(l)
         else if expected.Some? && payload != expected.value then Some(Local(l.sink, Ready(Failed(CommitFailed))))
         else Some(Local(AfterRecover(l.sink, epoch), Ready(Delivered(epoch))))
       case Poll(Eof(p)) =>
         var left := if p in unsettled && unsettled[p] then unsettled - {p} else unsettled;
         if left == map[] then Some(Local(l.sink, RecoverBegin(epoch, resend)))
         else Some(Local(l.sink, l.pc.(scan := Polling(left))))
       case _ => None)
  }

  /** A call on a sink that is not inside another call. */
  function NextCall(s: Sink, last: Outcome, ev: Event): Option<Local> {
    match ev
    case PreCommitPayloadCall(epoch, rows, payload) =>
      if !ValidPayload(s, epoch, payload) || s.topic.None? then Some(Local(s, Ready(Failed(Io))))
      else Some(EnterStage(s, epoch, rows, payload, RowHandle(s.connector, s.topic.value, epoch, payload)))
    case PreCommitCall(epoch, rows) =>
      Some(EnterStage(s, epoch, rows, Payload(None, Some(epoch), Marker(rows)), LegacyHandle(rows)))
    case CommitCall(epoch, state, fault) => Some(EnterCommit(s, epoch, state, fault))
    case AbortCall(epoch) => Some(EnterAbort(s, epoch))
    case NoopRecoverCall => Some(Local(s, Ready(Noop)))
    case RecoverCall(epoch, handle) => Some(EnterRecover(s, epoch, handle))
    case SetClusterCommitted(epoch) => Some(Local(s.(clusterCommitted := epoch), Ready(last)))
    case _ => None
  }

  /** The answer of one transactional request. */
  function NextAnswer(s: Sink, pc: Pc, ev: Event): Option<Local> {
    match pc
    case StageBegin(epoch, rows, payload, handle) =>
      if !ev.Begin? then None
      else Some(Local(s, if ev.ok then StageSend(epoch, rows, payload, handle) else Ready(Failed(PreCommitFailed))))
    case StageSend(epoch, rows, payload, handle) =>
      if !ev.Send? then None
      else if ev.ok then Some(Local(AfterStage(s, epoch), Ready(Staged(epoch, PreCommitted(rows, handle)))))
      else Some(Local(s, StageAbort(epoch)))
    case StageAbort(_) =>
      if !ev.AbortTxn? then None else Some(Local(s, Ready(Failed(PreCommitFailed))))
    case ForcedAbort(_) =>
      if !ev.AbortTxn? then None else Some(Local(s, Ready(Failed(CommitFailed))))
    case CommitOpen(epoch) =>
      if !ev.CommitTxn? then None
      else if ev.ok then Some(Local(AfterCommit(s, epoch), Ready(Delivered(epoch))))
      else Some(Local(s, Ready(Failed(CommitFailed))))
    case AbortOpen(epoch) =>
      if !ev.AbortTxn? then None
      else if ev.ok then Some(Local(AfterAbort(s, epoch), Ready(Discarded(epoch))))
      else Some(Local(s, Ready(Failed(Io))))
    case RecoverBegin(epoch, payload) =>
      if !ev.Begin? then None
      else Some(Local(s, if ev.ok then RecoverSend(epoch, payload) else Ready(Failed(CommitFailed))))
    case RecoverSend(epoch, payload) =>
      if !ev.Send? then None
      else Some(Local(s, if ev.ok then RecoverCommit(epoch, payload) else Ready(Failed(CommitFailed))))
    case RecoverCommit(epoch, _) =>
      if !ev.CommitTxn? then None
      else if ev.ok then Some(Local(AfterRecover(s, epoch), Ready(Delivered(epoch))))
      else Some(Local(s, Ready(Failed(CommitFailed))))
    case _ => None
  }

  /** One event; `None` when the event cannot happen here. */
  function Next(l: Local, ev: Event): Option<Local> {
    match l.pc
    case Ready(last) => NextCall(l.sink, last, ev)
    case Lookup(_, _, _, _) => NextLookup(l, ev)
    case _ => NextAnswer(l.sink, l.pc, ev)
  }

  /** A whole trace of events; `None` if some event could not happen. */
  function Trace(l: Local, events: seq<Event>): Option<Local> {
    if events == [] then Some(l)
    else
      var before := Trace(l, events[..|events| - 1]);
      if before.None? then None else Next(before.value, events[|events| - 1])
  }

  /** One event and then a trace. */
  lemma TraceCons(l: Local, ev: Event, rest: seq<Event>)
    requires Next(l, ev).Some?
    ensures Trace(l, [ev] + rest) == Trace(Next(l, ev).value, rest)
  {
    assert [ev][..0] == [] && Trace(l, [ev]) == Next(l, ev);
    TraceConcat(l, [ev], rest);
  }

  /** Traces compose. */
  lemma {:induction false} TraceConcat(l: Local, first: seq<Event>, second: seq<Event>)
    requires Trace(l, first).Some?
    ensures Trace(l, first + second) == Trace(Trace(l, first).value, second)
  {
    if second == [] {
      assert first + second == first;
    } else {
      var prefix := second[..|second| - 1];
      TraceConcat(l, first, prefix);
      assert (first + second)[..|first + second| - 1] == first + prefix;
    }
  }

  /** What is staged is what a recovery with the handle resends: for row envelopes and for legacy markers, the handle
      that staging returns leads the recovery, on the same or a reconnected sink, to the payload that was staged. */
  lemma RecoveryResendsStaged(s: Sink, call: Event, s': Sink)
    requires call.PreCommitPayloadCall? || call.PreCommitCall?
    requires NextCall(s, NoCall, call).value.pc.StageBegin?
    requires s'.connector == s.connector && s'.topic == s.topic && call.epoch <= s'.clusterCommitted
    ensures var staged := NextCall(s, NoCall, call).value.pc;
            && staged.epoch == call.epoch
            && EnterRecover(s', call.epoch, staged.handle) ==
                 Local(s', Lookup(call.epoch, if call.PreCommitPayloadCall? then Some(staged.payload) else None,
                                  staged.payload, Setup))
            && staged.payload == if call.PreCommitPayloadCall? then call.payload
                                 else Payload(None, Some(call.epoch), Marker(call.rows))
  {
  }
}
