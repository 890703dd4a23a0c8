/**
 The whole two-phase commit: one sink process, its durable recovery handles, the broker, and an environment that may
 crash the process, time transactions out, delay or lose answers, and let other producers use the topic.
 */
module KafkaProtocol {
  import opened Prelude
  import opened KafkaSinkMachine
  import opened KafkaBroker

  /** `Up` is a connected sink process; crashing loses everything in it. */
  datatype Process = Down | Up(local: Local, consumer: Consumer)

  /** Durable driver state: the payload of every persisted handle, and the epochs already confirmed. */
  datatype Ledger = Ledger(handles: map<Epoch, Payload>, done: set<Epoch>)

  /** `horizon` is the greatest cluster checkpoint ever announced to the sink.  `producer` outlives a crash as
      the leftover transaction and the records still in flight. */
  datatype World = World(
    me: nat,
    topic: string,
    broker: Broker,
    producer: Producer,
    process: Process,
    ledger: Ledger,
    horizon: Epoch)

  function Initial(me: nat, topic: string, partitions: nat): World {
    World(me, topic, Broker(seq(partitions, _ => []), []), Producer(None, []), Down, Ledger(map[], {}), 0)
  }

  datatype Step =
    // The sink process handles one event.  `effect` and `released` say what a failed commit or abort request did;
    // `end` is where the consumer stood when it reported the end of a partition.
    | Client(event: Event, effect: Effect, released: bool, end: nat)
    // The driver's durable writes.
    | Persist
    | Confirm
    | Forget
    // Process failures.
    | Crash
    | Connect(landLeftover: bool)
    // The broker and other producers.
    | Flush
    | Settle(txn: nat, land: bool)
    | ForeignBegin
    | ForeignAppend(txn: nat, partition: nat, payload: Payload)

  predicate Loaded(b: Broker, pr: Producer) {
    pr.current.Some? && (pr.queue != [] || (pr.current.value < |b.txns| && b.txns[pr.current.value].at.Some?))
  }

  predicate Resolvable(b: Broker, pr: Producer) { pr.current.Some? && pr.current.value < |b.txns| }

  // ---- The broker contract --------------------------------------------------------------------

  predicate EffectPossible(b: Broker, pr: Producer, effect: Effect, released: bool, commit: bool) {
    if !Resolvable(b, pr) then effect.Untouched? && !released
    else
      var status := b.txns[pr.current.value].status;
      && (effect.Untouched? || status.Open?)
      && (effect.Asked? || effect.Took? ==> commit && pr.queue == [])
      && (released ==> effect.Took? || effect.Cancelled? || (effect.Untouched? && !status.Open?))
  }

  /** What the broker may answer.  In particular `begin` never succeeds while the producer is in a transaction, a
      successful commit means the transaction has landed, and the end of a partition is never reported before the
      stable offset reported earlier. */
  ghost predicate AnswerPossible(w: World, s: Step)
    requires s.Client? && w.process.Up?
  {
    var b, pr, c := w.broker, w.producer, w.process.consumer;
    var pc := w.process.local.pc;
    match s.event
    case Begin(ok) => ok ==> pr.current.None?
    case CommitTxn(ok) =>
      if ok then Resolvable(b, pr) && pr.queue == [] && !b.txns[pr.current.value].status.Dropped?
      else EffectPossible(b, pr, s.effect, s.released, true)
    case AbortTxn(ok) =>
      if ok then Resolvable(b, pr) && !b.txns[pr.current.value].status.Landed?
      else EffectPossible(b, pr, s.effect, s.released, false)
    case Metadata(n) => n == |b.logs|
    case High(h) =>
      |c.highs| < |b.logs| && h == |b.logs[|c.highs|]|
    case Stable(n) => ResolvedBelow(b, |c.stables|, n)
    case Poll(Message(q, i, payload)) =>
      && q < |b.logs| && q < |c.positions| && c.positions[q] <= i
      && InRange(b, q, i) && StatusAt(b, q, i).Landed? && b.logs[q][i].payload == payload
      && ResolvedBelow(b, q, i + 1)
      && NothingLanded(b, q, c.positions[q], i)
    case Poll(Eof(q)) =>
      && q < |b.logs| && q < |c.positions| && q < |c.stables|
      && c.positions[q] <= s.end && c.stables[q] <= s.end
      && ResolvedBelow(b, q, s.end)
      && NothingLanded(b, q, c.positions[q], s.end)
    case _ => true
  }

  ghost predicate Possible(w: World, s: Step) {
    var b, pr := w.broker, w.producer;
    match s
    case Client(ev, _, _, _) =>
      && w.process.Up?
      && Next(w.process.local, ev).Some?
      && AnswerPossible(w, s)
    case Persist =>
      && w.process.Up? && w.process.local.pc.Ready? && w.process.local.pc.last.Staged?
      && var staged := w.process.local.pc.last;
         && staged.state.PreCommitted? && staged.state.handle.RowHandle?
         && staged.epoch !in w.ledger.handles
    case Confirm =>
      && w.process.Up? && w.process.local.pc.Ready? && w.process.local.pc.last.Delivered?
      && w.process.local.pc.last.epoch in w.ledger.handles
    case Forget =>
      w.process.Up? && w.process.local.pc.Ready? && w.process.local.pc.last.Discarded?
    case Crash => w.process.Up?
    case Connect(_) => w.process.Down?
    case Flush =>
      && pr.queue != [] && Resolvable(b, pr) && |b.logs| > 0
      && b.txns[pr.current.value].status.Open? && b.txns[pr.current.value].at.None?
    case Settle(t, land) =>
      && t < |b.txns| && b.txns[t].status.Open?
      && (land ==> b.txns[t].own.None? || b.txns[t].status.requested)
    case ForeignBegin => true
    case ForeignAppend(t, q, payload) =>
      && t < |b.txns| && q < |b.logs| && b.txns[t].own.None? && b.txns[t].status.Open?
      && !Is(payload.connector, w.me)
  }

  // ---- The driver discipline ------------------------------------------------------------------

  /** A new epoch is staged only if no handle for it was persisted, commits and aborts name the epoch of the open
      transaction, a commit follows a successful hand-over of the record, and persisted epochs re-enter only
      through `recover` with the persisted handle. */
  predicate Allowed(w: World, s: Step) {
    s.Client? ==>
      match s.event
      case PreCommitPayloadCall(epoch, _, _) => epoch !in w.ledger.handles
      case PreCommitCall(_, _) => false
      case CommitCall(epoch, _, _) =>
        && epoch in w.ledger.handles && Loaded(w.broker, w.producer)
        && OwnOf(w.broker, w.producer.current.value, epoch)
      case AbortCall(epoch) =>
        w.producer.current.Some? && OwnOf(w.broker, w.producer.current.value, epoch)
      case RecoverCall(epoch, handle) =>
        epoch in w.ledger.handles && handle == RowHandle(w.me, w.topic, epoch, w.ledger.handles[epoch])
      case _ => true
  }

  // ---- Steps ------------------------------------------------------------------------------------

  /** The broker after one event of a process at `pc`. */
  function BrokerAfter(b: Broker, pr: Producer, pc: Pc, s: Step): Broker
    requires s.Client?
  {
    match s.event
    case Begin(ok) =>
      if ok && (pc.StageBegin? || pc.RecoverBegin?) then BeginOwn(b, pc.epoch, pc.payload) else b
    case CommitTxn(ok) =>
      if !Resolvable(b, pr) then b
      else if ok then SetStatus(b, pr.current.value, Landed)
      else Apply(b, pr.current.value, s.effect)
    case AbortTxn(ok) =>
      if !Resolvable(b, pr) then b
      else if ok then SetStatus(b, pr.current.value, Dropped)
      else Apply(b, pr.current.value, s.effect)
    case _ => b
  }

  function ProducerAfter(b: Broker, pr: Producer, pc: Pc, s: Step): Producer
    requires s.Client?
  {
    match s.event
    case Begin(ok) =>
      if ok && (pc.StageBegin? || pc.RecoverBegin?) then Producer(Some(|b.txns|), []) else pr
    case Send(ok) =>
      if ok && (pc.StageSend? || pc.RecoverSend?) then pr.(queue := pr.queue + [pc.payload]) else pr
    case CommitTxn(ok) => if ok || s.released then Producer(None, []) else pr
    case AbortTxn(ok) => if ok || s.released then Producer(None, []) else pr
    case _ => pr
  }

  function ConsumerAfter(b: Broker, c: Consumer, s: Step): Consumer
    requires s.Client?
  {
    match s.event
    case RecoverCall(_, _) => Consumer([], [], seq(|b.logs|, _ => 0))
    case High(h) => c.(highs := c.highs + [h])
    case Stable(n) => c.(stables := c.stables + [n])
    case Poll(Message(q, i, _)) => if q < |c.positions| then c.(positions := c.positions[q := i + 1]) else c
    case Poll(Eof(q)) => if q < |c.positions| then c.(positions := c.positions[q := s.end]) else c
    case _ => c
  }

  function Max(a: nat, b: nat): nat { if a < b then b else a }

  function DoClient(w: World, s: Step): World
    requires s.Client? && w.process.Up? && Next(w.process.local, s.event).Some?
  {
    var pc := w.process.local.pc;
    w.(broker := BrokerAfter(w.broker, w.producer, pc, s),
       producer := ProducerAfter(w.broker, w.producer, pc, s),
       process := Up(Next(w.process.local, s.event).value, ConsumerAfter(w.broker, w.process.consumer, s)),
       horizon := if s.event.SetClusterCommitted? then Max(w.horizon, s.event.epoch) else w.horizon)
  }

  /** Reconnecting: `init_transactions` fences the old producer and resolves its transaction. */
  function DoConnect(w: World, landLeftover: bool): World {
    var b, pr := w.broker, w.producer;
    var b' :=
      if Resolvable(b, pr) && b.txns[pr.current.value].status.Open? then
        SetStatus(b, pr.current.value,
                  if landLeftover && b.txns[pr.current.value].status.requested then Landed else Dropped)
      else b;
    w.(broker := b', producer := Producer(None, []),
       process := Up(Local(FreshSink(w.me, Some(w.topic)), Ready(NoCall)), Consumer([], [], [])))
  }

  ghost function Do(w: World, s: Step): World
    requires Possible(w, s)
  {
    match s
    case Client(_, _, _, _) => DoClient(w, s)
    case Persist =>
      var staged := w.process.local.pc.last;
      w.(ledger := w.ledger.(handles := w.ledger.handles[staged.epoch := staged.state.handle.payload]))
    case Confirm => w.(ledger := w.ledger.(done := w.ledger.done + {w.process.local.pc.last.epoch}))
    case Forget => w.(ledger := w.ledger.(handles := w.ledger.handles - {w.process.local.pc.last.epoch}))
    case Crash => w.(process := Down)
    case Connect(landLeftover) => DoConnect(w, landLeftover)
    case Flush =>
      w.(broker := AppendOwn(w.broker, w.producer.current.value, w.producer.queue[0]),
         producer := w.producer.(queue := w.producer.queue[1..]))
    case Settle(t, land) => w.(broker := SetStatus(w.broker, t, if land then Landed else Dropped))
    case ForeignBegin => w.(broker := BeginForeign(w.broker))
    case ForeignAppend(t, q, payload) => w.(broker := AppendForeign(w.broker, t, q, payload))
  }

  /** A whole run; `None` if some step is not possible where it stands. */
  ghost function Run(w: World, steps: seq<Step>): Option<World> {
    if steps == [] then Some(w)
    else
      var before := Run(w, steps[..|steps| - 1]);
      if before.None? || !Possible(before.value, steps[|steps| - 1]) then None
      else Some(Do(before.value, steps[|steps| - 1]))
  }

  /** Every step of the run respects the driver discipline. */
  ghost predicate Disciplined(w: World, steps: seq<Step>) {
    steps == [] || (
      && Disciplined(w, steps[..|steps| - 1])
      && var before := Run(w, steps[..|steps| - 1]);
         before.Some? ==> Allowed(before.value, steps[|steps| - 1]))
  }
}
