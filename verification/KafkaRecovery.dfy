/** From which states the pending epoch can be recovered, and how: a restart, the lookup, and if need be a commit. */
module KafkaRecovery {
  import opened Prelude
  import opened Paths
  import opened KafkaSinkMachine
  import opened KafkaBroker
  import opened KafkaProtocol
  import opened KafkaInvariant
  import opened KafkaRuns
  import opened KafkaViewDriver
  import opened KafkaTidy
  import opened KafkaProgress

  // ---- The condition ---------------------------------------------------------------------------------

  /** A committed record that the lookup takes for the epoch's. */
  predicate MatchAt(b: Broker, me: nat, epoch: Epoch, q: nat, i: nat) {
    InRange(b, q, i) && StatusAt(b, q, i).Landed? && Matches(me, epoch, b.logs[q][i].payload)
  }

  ghost predicate NothingMatches(b: Broker, me: nat, epoch: Epoch) {
    forall q: nat, i: nat :: !MatchAt(b, me, epoch, q, i)
  }

  /** An attempt at the epoch with its record in the log has landed, or may still land. */
  predicate MayCount(b: Broker, epoch: Epoch, t: nat) {
    && OwnOf(b, t, epoch) && b.txns[t].at.Some?
    && (b.txns[t].status.Landed? || (b.txns[t].status.Open? && b.txns[t].status.requested))
  }

  /** Such an attempt, and nothing before it in its partition is taken for it. */
  ghost predicate FoundFirst(b: Broker, me: nat, epoch: Epoch, t: nat) {
    MayCount(b, epoch, t) && NoMatchBelow(b, me, epoch, 0, b.txns[t].at.value)
  }

  /** Either the lookup can meet the sink's own record first, or it can meet no record that it takes for the epoch's. */
  ghost predicate Recoverable(b: Broker, me: nat, epoch: Epoch) {
    (exists t :: FoundFirst(b, me, epoch, t)) || NothingMatches(b, me, epoch)
  }

  /** The same records are committed. */
  ghost predicate SameLanded(b: Broker, b': Broker) {
    && b'.logs == b.logs && |b'.txns| == |b.txns|
    && forall t {:trigger b'.txns[t]} :: 0 <= t < |b.txns| ==>
         && b'.txns[t].own == b.txns[t].own && b'.txns[t].at == b.txns[t].at
         && (b'.txns[t].status.Landed? <==> b.txns[t].status.Landed?)
  }

  lemma NoMatchSame(b: Broker, b': Broker, me: nat, epoch: Epoch, q: nat, end: nat)
    requires SameLanded(b, b') && NoMatchBelow(b, me, epoch, q, end)
    ensures NoMatchBelow(b', me, epoch, q, end)
  {
    forall i | 0 <= i < end && InRange(b', q, i) && StatusAt(b', q, i).Landed?
        ensures !Matches(me, epoch, b'.logs[q][i].payload) {
      assert InRange(b, q, i);
    }
  }

  lemma NothingMatchesSame(b: Broker, b': Broker, me: nat, epoch: Epoch)
    requires SameLanded(b, b') && NothingMatches(b, me, epoch)
    ensures NothingMatches(b', me, epoch)
  {
    forall q: nat, i: nat ensures !MatchAt(b', me, epoch, q, i) {
      assert !MatchAt(b, me, epoch, q, i);
    }
  }

  // ---- Restarting ------------------------------------------------------------------------------------

  /** With no transaction held, an attempt that is not dropped has landed. */
  lemma NoneOpen(w: World, t: nat)
    requires Inv(w) && w.producer.current.None? && Own(w.broker, t)
    ensures !w.broker.txns[t].status.Open?
  {
    assert OwnTxnOk(w.broker, w.producer, w.ledger, w.horizon, t);
  }

  lemma LandLeftover(w: World, epoch: Epoch, t: nat)
    requires Inv(w) && w.process.Down? && FoundFirst(w.broker, w.me, epoch, t) && w.broker.txns[t].status.Open?
    ensures FoundFirst(DoConnect(w, true).broker, w.me, epoch, t)
  {
    var b, b' := w.broker, DoConnect(w, true).broker;
    assert Own(b, t) && OwnTxnOk(b, w.producer, w.ledger, w.horizon, t);
    assert b' == SetStatus(b, t, Landed);
    forall i | 0 <= i < b.txns[t].at.value && InRange(b', 0, i) && StatusAt(b', 0, i).Landed?
      ensures !Matches(w.me, epoch, b'.logs[0][i].payload)
    {
      assert EntryOk(b, w.me, 0, i) && InRange(b, 0, i);
    }
  }

  lemma DropLeftover(w: World)
    requires Inv(w) && w.process.Down?
    ensures SameLanded(w.broker, DoConnect(w, false).broker)
  {
  }

  /** The reconnect can resolve a leftover transaction so that the epoch stays recoverable. */
  lemma ConnectKeepsRecoverable(w: World, epoch: Epoch) returns (land: bool)
    requires Inv(w) && w.process.Down? && Recoverable(w.broker, w.me, epoch)
    ensures Recoverable(DoConnect(w, land).broker, w.me, epoch)
  {
    var b := w.broker;
    if t: nat :| FoundFirst(b, w.me, epoch, t) {
      land := b.txns[t].status.Open?;
      if land {
        LandLeftover(w, epoch, t);
      } else {
        DropLeftover(w);
        NoMatchSame(b, DoConnect(w, false).broker, w.me, epoch, 0, b.txns[t].at.value);
        assert FoundFirst(DoConnect(w, false).broker, w.me, epoch, t);
      }
    } else {
      land := false;
      DropLeftover(w);
      NothingMatchesSame(b, DoConnect(w, false).broker, w.me, epoch);
    }
  }

  ghost predicate NoOpen(b: Broker) { forall t {:trigger b.txns[t]} :: 0 <= t < |b.txns| ==> !b.txns[t].status.Open? }

  lemma SettleStep(x: Exporter, t: nat)
    requires t < |x.world.broker.txns| && x.world.broker.txns[t].status.Open?
    ensures Advance(x, Settle(t, false)) ==
              Some(x.(world := x.world.(broker := SetStatus(x.world.broker, t, Dropped))))
  {
  }

  /** Every open transaction, of whichever producer, can be made to time out. */
  lemma {:induction false} SettleFrom(x: Exporter, k: nat) returns (steps: seq<Step>, end: Exporter)
    requires k <= |x.world.broker.txns| && forall t :: 0 <= t < k ==> !x.world.broker.txns[t].status.Open?
    ensures Proceeds(x, steps, end) && end == x.(world := x.world.(broker := end.world.broker))
    ensures SameLanded(x.world.broker, end.world.broker) && NoOpen(end.world.broker)
    decreases |x.world.broker.txns| - k
  {
    Stay(x);
    if k == |x.world.broker.txns| {
      steps, end := [], x;
    } else if x.world.broker.txns[k].status.Open? {
      var x1 := x.(world := x.world.(broker := SetStatus(x.world.broker, k, Dropped)));
      SettleStep(x, k);
      Take(x, [], x, Settle(k, false), x1);
      var rest;
      rest, end := SettleFrom(x1, k + 1);
      steps := ([] + [Settle(k, false)]) + rest;
      ContinuesJoin(x, [] + [Settle(k, false)], x1, rest, end);
    } else {
      steps, end := SettleFrom(x, k + 1);
    }
  }

  lemma NoOpenResolved(b: Broker, me: nat, q: nat, end: nat)
    requires WellFormed(b, me) && NoOpen(b) && q < |b.logs| && end <= |b.logs[q]|
    ensures ResolvedBelow(b, q, end)
  {
  }

  // ---- What a lookup still has to read -----------------------------------------------------------------

  /** A lookup in a topic without open transactions. */
  ghost predicate Quietened(x: Exporter, w: World, k: Look) {
    x.world == Looking(w, k) && WellFormed(w.broker, w.me) && NoOpen(w.broker) && LookOk(w.broker, k)
  }

  /** The captured watermarks, the read positions and the partitions waited for belong together. */
  ghost predicate LookOk(b: Broker, k: Look) {
    var c := k.consumer;
    && |c.positions| == |b.logs| && |c.stables| <= |c.highs| <= |b.logs|
    && (forall q {:trigger c.positions[q]} :: 0 <= q < |b.logs| ==> c.positions[q] <= |b.logs[q]|)
    && (forall q {:trigger c.highs[q]} :: 0 <= q < |c.highs| ==> c.highs[q] <= |b.logs[q]|)
    && (forall q {:trigger c.stables[q]} :: 0 <= q < |c.stables| ==> c.stables[q] <= |b.logs[q]|)
    && match k.scan
       case Setup => c.highs == [] && c.stables == []
       case Capture(total, unsettled, next, high) =>
         && total == |b.logs| && next < total && |c.stables| == next
         && |c.highs| == next + (if high.Some? then 1 else 0) && (high.Some? ==> high.value == c.highs[next])
         && (forall q :: q in unsettled ==> q < next)
       case Polling(unsettled) =>
         |c.highs| == |c.stables| == |b.logs| && unsettled != map[] && forall q :: q in unsettled ==> q < |b.logs|
  }

  /** How far partition q has to be read before its end says something. */
  function Limit(b: Broker, c: Consumer, q: nat): nat
    requires q < |b.logs|
  {
    if q < |c.stables| then c.stables[q] else if q < |c.highs| then c.highs[q] else |b.logs[q]|
  }

  /** Partition q does not keep the lookup from answering "absent": it is done with, or it was stable or is still to be
      captured and holds nothing up to its limit that is taken for the epoch's. */
  ghost predicate PartitionClear(b: Broker, me: nat, epoch: Epoch, unsettled: map<nat, bool>, c: Consumer, q: nat) {
    q < |b.logs| && (
      (q < |c.stables| && q !in unsettled)
      || ((q < |c.stables| ==> unsettled[q]) && NoMatchBelow(b, me, epoch, q, Limit(b, c, q))))
  }

  ghost predicate Clear(b: Broker, me: nat, epoch: Epoch, scan: Scan, c: Consumer) {
    forall q: nat {:trigger PartitionClear(b, me, epoch, Unsettled(scan), c, q)} ::
      q < |b.logs| ==> PartitionClear(b, me, epoch, Unsettled(scan), c, q)
  }

  lemma ClearSame(b: Broker, b': Broker, me: nat, epoch: Epoch, scan: Scan, c: Consumer)
    requires SameLanded(b, b') && Clear(b, me, epoch, scan, c)
    ensures Clear(b', me, epoch, scan, c)
  {
    forall q: nat | q < |b'.logs| ensures PartitionClear(b', me, epoch, Unsettled(scan), c, q) {
      assert PartitionClear(b, me, epoch, Unsettled(scan), c, q);
      if !(q < |c.stables| && q !in Unsettled(scan)) { NoMatchSame(b, b', me, epoch, q, Limit(b, c, q)); }
    }
  }

  lemma NothingMatchesIsClear(b: Broker, me: nat, epoch: Epoch, scan: Scan, c: Consumer)
    requires NothingMatches(b, me, epoch) && c.highs == [] && c.stables == []
    ensures Clear(b, me, epoch, scan, c)
  {
    forall q: nat | q < |b.logs| ensures PartitionClear(b, me, epoch, Unsettled(scan), c, q) {
      forall i | 0 <= i < |b.logs[q]| && InRange(b, q, i) && StatusAt(b, q, i).Landed?
        ensures !Matches(me, epoch, b.logs[q][i].payload)
      {
        assert !MatchAt(b, me, epoch, q, i);
      }
    }
  }

  /** No partition stands in the way of a fresh lookup exactly when there is nothing that is taken for the epoch's. */
  lemma FreshIsClearIff(b: Broker, me: nat, epoch: Epoch, scan: Scan, c: Consumer)
    requires c.highs == [] && c.stables == []
    ensures Clear(b, me, epoch, scan, c) <==> NothingMatches(b, me, epoch)
  {
    if Clear(b, me, epoch, scan, c) {
      forall q: nat, i: nat ensures !MatchAt(b, me, epoch, q, i) {
        if q < |b.logs| { assert PartitionClear(b, me, epoch, Unsettled(scan), c, q); }
      }
    }
    if NothingMatches(b, me, epoch) { NothingMatchesIsClear(b, me, epoch, scan, c); }
  }

  // ---- Capturing the watermarks ------------------------------------------------------------------------

  /** The high watermark of the next partition. */
  lemma CaptureHigh(x: Exporter, w: World, k: Look) returns (end: Exporter, k': Look)
    requires Quietened(x, w, k) && k.scan.Capture? && k.scan.high.None?
    ensures Advance(x, Quietly(High(|w.broker.logs[k.scan.next]|))) == Some(end)
    ensures end == Exporter(Looking(w, k'), x.progress) && Quietened(end, w, k')
    ensures var h := |w.broker.logs[k.scan.next]|;
            k' == k.(scan := k.scan.(high := Some(h)), consumer := k.consumer.(highs := k.consumer.highs + [h]))
    ensures Clear(w.broker, w.me, k.epoch, k.scan, k.consumer) ==> Clear(w.broker, w.me, k.epoch, k'.scan, k'.consumer)
  {
    var b, h := w.broker, |w.broker.logs[k.scan.next]|;
    HighStep(w, k, h);
    k' := k.(scan := k.scan.(high := Some(h)), consumer := k.consumer.(highs := k.consumer.highs + [h]));
    end := Exporter(Looking(w, k'), x.progress);
    if Clear(b, w.me, k.epoch, k.scan, k.consumer) {
      forall q: nat | q < |b.logs| ensures PartitionClear(b, w.me, k.epoch, Unsettled(k'.scan), k'.consumer, q) {
        assert PartitionClear(b, w.me, k.epoch, Unsettled(k.scan), k.consumer, q);
      }
    }
  }

  /** And its stable offset, which is no less. */
  lemma CaptureStable(x: Exporter, w: World, k: Look) returns (end: Exporter, k': Look)
    requires Quietened(x, w, k) && k.scan.Capture? && k.scan.high.Some?
    requires forall q :: q in k.scan.unsettled ==> k.scan.unsettled[q]
    ensures Advance(x, Quietly(Stable(k.scan.high.value))) == Some(end)
    ensures end == Exporter(Looking(w, k'), x.progress) && Quietened(end, w, k')
    ensures var h := k.scan.high.value;
            k' == k.(scan := AfterStable(k.scan, h), consumer := k.consumer.(stables := k.consumer.stables + [h]))
    ensures forall q :: q in Unsettled(k'.scan) ==> Unsettled(k'.scan)[q]
    ensures Clear(w.broker, w.me, k.epoch, k.scan, k.consumer) ==> Clear(w.broker, w.me, k.epoch, k'.scan, k'.consumer)
  {
    var b, h, p := w.broker, k.scan.high.value, k.scan.next;
    NoOpenResolved(b, w.me, p, h);
    StableStep(w, k, h);
    k' := k.(scan := AfterStable(k.scan, h), consumer := k.consumer.(stables := k.consumer.stables + [h]));
    end := Exporter(Looking(w, k'), x.progress);
    assert Unsettled(k'.scan) == k.scan.unsettled[p := true];
    assert p in Unsettled(k'.scan);
    if Clear(b, w.me, k.epoch, k.scan, k.consumer) {
      forall q: nat | q < |b.logs| ensures PartitionClear(b, w.me, k.epoch, Unsettled(k'.scan), k'.consumer, q) {
        assert PartitionClear(b, w.me, k.epoch, Unsettled(k.scan), k.consumer, q);
      }
    }
  }

  /** The same lookup, at another point of its scan. */
  predicate SameLook(k: Look, k': Look) { k'.sink == k.sink && k'.epoch == k.epoch && k'.payload == k.payload }

  /** The rest of the capture leaves nothing unstable and reads nothing. */
  lemma {:induction false} CaptureRest(x: Exporter, w: World, k: Look)
    returns (steps: seq<Step>, end: Exporter, k': Look)
    requires Quietened(x, w, k) && k.scan.Capture? && forall q :: q in k.scan.unsettled ==> k.scan.unsettled[q]
    ensures Proceeds(x, steps, end) && end == Exporter(Looking(w, k'), x.progress) && Quietened(end, w, k')
    ensures k'.scan.Polling? && SameLook(k, k') && k'.consumer.positions == k.consumer.positions
    ensures forall q :: q in k'.scan.unsettled ==> k'.scan.unsettled[q]
    ensures Clear(w.broker, w.me, k.epoch, k.scan, k.consumer) ==> Clear(w.broker, w.me, k.epoch, k'.scan, k'.consumer)
    decreases |w.broker.logs| - k.scan.next, k.scan.high.None?
  {
    var x1, k1, s;
    if k.scan.high.None? {
      x1, k1 := CaptureHigh(x, w, k);
      s := Quietly(High(|w.broker.logs[k.scan.next]|));
    } else {
      x1, k1 := CaptureStable(x, w, k);
      s := Quietly(Stable(k.scan.high.value));
    }
    Stay(x);
    Take(x, [], x, s, x1);
    if k1.scan.Polling? {
      steps, end, k' := [] + [s], x1, k1;
    } else {
      var rest;
      rest, end, k' := CaptureRest(x1, w, k1);
      steps := ([] + [s]) + rest;
      ContinuesJoin(x, [] + [s], x1, rest, end);
    }
  }

  // ---- Reading the partitions ------------------------------------------------------------------------

  /** The first committed record at or after an offset, or the end of the partition. */
  function NextLanded(b: Broker, q: nat, from: nat): (i: nat)
    requires q < |b.logs| && from <= |b.logs[q]|
    ensures from <= i <= |b.logs[q]|
    ensures i < |b.logs[q]| ==> InRange(b, q, i) && StatusAt(b, q, i).Landed?
    ensures forall j {:trigger InRange(b, q, j)} :: from <= j < i && InRange(b, q, j) ==> !StatusAt(b, q, j).Landed?
    decreases |b.logs[q]| - from
  {
    if from == |b.logs[q]| then from
    else if InRange(b, q, from) && StatusAt(b, q, from).Landed? then from
    else NextLanded(b, q, from + 1)
  }

  function ReadUpTo(k: Look, q: nat, pos: nat): Look
    requires q < |k.consumer.positions|
  {
    k.(consumer := k.consumer.(positions := k.consumer.positions[q := pos]))
  }

  lemma PassOne(x: Exporter, w: World, k: Look, q: nat, i: nat) returns (s: Step, end: Exporter)
    requires Quietened(x, w, k) && k.scan.Polling? && Readable(w.broker, k.consumer, q, i)
    requires NothingLanded(w.broker, q, k.consumer.positions[q], i)
    requires !Matches(k.sink.connector, k.epoch, w.broker.logs[q][i].payload)
    ensures Advance(x, s) == Some(end) && end == Exporter(Looking(w, ReadUpTo(k, q, i + 1)), x.progress)
    ensures Quietened(end, w, ReadUpTo(k, q, i + 1))
  {
    NoOpenResolved(w.broker, w.me, q, i + 1);
    PassStep(w, k, q, i);
    s := Quietly(Poll(Message(q, i, w.broker.logs[q][i].payload)));
    end := Exporter(Looking(w, ReadUpTo(k, q, i + 1)), x.progress);
  }

  /** Nothing committed is left to read before the limit. */
  ghost predicate ReadTo(b: Broker, q: nat, pos: nat, limit: nat) { pos >= limit || NothingLanded(b, q, pos, limit) }

  /** A partition with no matching record up to the limit can be read that far. */
  lemma {:induction false} ReadOut(x: Exporter, w: World, k: Look, q: nat, limit: nat)
    returns (steps: seq<Step>, end: Exporter, pos: nat)
    requires Quietened(x, w, k) && k.scan.Polling? && q < |w.broker.logs|
    requires limit <= |w.broker.logs[q]| && NoMatchBelow(w.broker, k.sink.connector, k.epoch, q, limit)
    ensures pos <= |w.broker.logs[q]| && ReadTo(w.broker, q, pos, limit)
    ensures Proceeds(x, steps, end) && end == Exporter(Looking(w, ReadUpTo(k, q, pos)), x.progress)
    ensures Quietened(end, w, ReadUpTo(k, q, pos))
    decreases |w.broker.logs[q]| - k.consumer.positions[q]
  {
    var b, at := w.broker, k.consumer.positions[q];
    var i := NextLanded(b, q, at);
    if i >= limit {
      steps, end, pos := [], x, at;
      Stay(x);
      assert k.consumer.positions[q := at] == k.consumer.positions;
      assert ReadUpTo(k, q, at) == k;
      assert at < limit ==> NothingLanded(b, q, at, limit);
    } else {
      assert InRange(b, q, i);
      var s, x1 := PassOne(x, w, k, q, i);
      Stay(x);
      Take(x, [], x, s, x1);
      var rest;
      rest, end, pos := ReadOut(x1, w, ReadUpTo(k, q, i + 1), q, limit);
      steps := ([] + [s]) + rest;
      ContinuesJoin(x, [] + [s], x1, rest, end);
      assert k.consumer.positions[q := i + 1][q := pos] == k.consumer.positions[q := pos];
      assert ReadUpTo(ReadUpTo(k, q, i + 1), q, pos) == ReadUpTo(k, q, pos);
    }
  }

  /** The point where the sink has found the epoch absent. */
  ghost predicate Absent(x: Exporter, w: World, k: Look) {
    exists c :: x.world == w.(process := Up(Local(k.sink, RecoverBegin(k.epoch, k.payload)), c))
  }

  /** The end of a partition read far enough. */
  lemma EndPartition(x: Exporter, w: World, k: Look, q: nat) returns (s: Step, end: Exporter, k': Look)
    requires Quietened(x, w, k) && k.scan.Polling? && q in k.scan.unsettled && k.scan.unsettled[q]
    requires ReadTo(w.broker, q, k.consumer.positions[q], k.consumer.stables[q])
    ensures Advance(x, s) == Some(end) && end.progress == x.progress
    ensures k.scan.unsettled - {q} == map[] ==> Absent(end, w, k)
    ensures k.scan.unsettled - {q} != map[] ==>
              && end.world == Looking(w, k') && Quietened(end, w, k') && SameLook(k, k')
              && k'.scan == Polling(k.scan.unsettled - {q}) && k'.consumer.stables == k.consumer.stables
              && k'.consumer.highs == k.consumer.highs
  {
    var pos, stable := k.consumer.positions[q], k.consumer.stables[q];
    var to := if pos < stable then stable else pos;
    NoOpenResolved(w.broker, w.me, q, to);
    EofStep(w, k, q, to);
    s := EofAt(q, to);
    k' := k.(scan := Polling(k.scan.unsettled - {q}),
             consumer := k.consumer.(positions := k.consumer.positions[q := to]));
    end := Exporter(Do(x.world, s), x.progress);
  }

  lemma ClearLeft(b: Broker, me: nat, epoch: Epoch, k: Look, k': Look, q: nat)
    requires k.scan.Polling? && k'.scan == Polling(k.scan.unsettled - {q}) && q < |k.consumer.stables|
    requires k'.consumer.stables == k.consumer.stables && k'.consumer.highs == k.consumer.highs
    requires Clear(b, me, epoch, k.scan, k.consumer)
    ensures Clear(b, me, epoch, k'.scan, k'.consumer)
  {
    forall p: nat | p < |b.logs| ensures PartitionClear(b, me, epoch, Unsettled(k'.scan), k'.consumer, p) {
      assert PartitionClear(b, me, epoch, Unsettled(k.scan), k.consumer, p);
    }
  }

  /** A lookup none of whose partitions stands in the way can end in "absent". */
  lemma {:induction false} ReadAll(x: Exporter, w: World, k: Look) returns (steps: seq<Step>, end: Exporter)
    requires Quietened(x, w, k) && k.scan.Polling? && k.sink.connector == w.me
    requires Clear(w.broker, w.me, k.epoch, k.scan, k.consumer)
    ensures Proceeds(x, steps, end) && Absent(end, w, k) && end.progress == x.progress
    decreases |k.scan.unsettled|
  {
    var q :| q in k.scan.unsettled;
    assert PartitionClear(w.broker, w.me, k.epoch, Unsettled(k.scan), k.consumer, q);
    var first, x1, pos := ReadOut(x, w, k, q, k.consumer.stables[q]);
    var s, x2, k2 := EndPartition(x1, w, ReadUpTo(k, q, pos), q);
    Take(x, first, x1, s, x2);
    if k.scan.unsettled - {q} == map[] {
      steps, end := first + [s], x2;
    } else {
      ClearLeft(w.broker, w.me, k.epoch, k, k2, q);
      assert (k.scan.unsettled - {q}).Keys == k.scan.unsettled.Keys - {q};
      var rest;
      rest, end := ReadAll(x2, w, k2);
      steps := (first + [s]) + rest;
      ContinuesJoin(x, first + [s], x2, rest, end);
    }
  }

  /** The outcome wanted: the call has answered that the epoch is delivered. */
  predicate DeliveredFrom(x: Exporter, end: Exporter, s: Sink, t: Epoch) {
    && end.progress == x.progress && end.world.ledger == x.world.ledger
    && SinkAt(end.world, s, Ready(Delivered(t)))
  }

  /** The sink's own record, if nothing before it is taken for it, can be found. */
  lemma {:induction false} FindOwn(x: Exporter, w: World, k: Look, i: nat) returns (steps: seq<Step>, end: Exporter)
    requires Quietened(x, w, k) && k.scan.Polling? && |w.broker.logs| > 0 && k.consumer.positions[0] <= i
    requires InRange(w.broker, 0, i) && StatusAt(w.broker, 0, i).Landed? && w.broker.logs[0][i].payload == k.payload
    requires Matches(k.sink.connector, k.epoch, k.payload) && NoMatchBelow(w.broker, k.sink.connector, k.epoch, 0, i)
    ensures Proceeds(x, steps, end) && DeliveredFrom(x, end, AfterRecover(k.sink, k.epoch), k.epoch)
    decreases i - k.consumer.positions[0]
  {
    var b := w.broker;
    var j := NextLanded(b, 0, k.consumer.positions[0]);
    assert InRange(b, 0, i);
    Stay(x);
    if j == i {
      NoOpenResolved(b, w.me, 0, i + 1);
      FoundStep(w, k, 0, i);
      var s := Quietly(Poll(Message(0, i, k.payload)));
      end := Exporter(Do(x.world, s), x.progress);
      Take(x, [], x, s, end);
      steps := [] + [s];
    } else {
      var s, x1 := PassOne(x, w, k, 0, j);
      Take(x, [], x, s, x1);
      var rest;
      rest, end := FindOwn(x1, w, ReadUpTo(k, 0, j + 1), i);
      steps := ([] + [s]) + rest;
      ContinuesJoin(x, [] + [s], x1, rest, end);
    }
  }

  // ---- The recovery as a whole ------------------------------------------------------------------------

  /** A held transaction that can still be committed. */
  predicate Sendable(w: World) {
    && Resolvable(w.broker, w.producer) && |w.broker.logs| > 0 && |w.producer.queue| <= 1
    && var txn := w.broker.txns[w.producer.current.value];
       txn.status.Open? && (w.producer.queue != [] ==> txn.at.None?)
  }

  /** What is still queued can be appended. */
  lemma FlushOut(x: Exporter) returns (steps: seq<Step>, end: Exporter)
    requires Sendable(x.world)
    ensures Proceeds(x, steps, end) && Sendable(end.world)
    ensures end == x.(world := x.world.(broker := end.world.broker, producer := x.world.producer.(queue := [])))
  {
    Stay(x);
    if x.world.producer.queue == [] {
      steps, end := [], x;
    } else {
      FlushStep(x.world, x.world.producer.queue[0]);
      end := Exporter(Do(x.world, Flush), x.progress);
      steps := [] + [Flush];
      Take(x, [], x, Flush, end);
    }
  }

  lemma CommitSent(x: Exporter, s: Sink, t: Epoch, payload: Payload) returns (steps: seq<Step>, end: Exporter)
    requires SinkAt(x.world, s, RecoverCommit(t, payload)) && Sendable(x.world)
    ensures Proceeds(x, steps, end) && DeliveredFrom(x, end, AfterRecover(s, t), t)
  {
    var first, x1 := FlushOut(x);
    RecoverCommitStep(x1.world, s, t, payload);
    end := Exporter(Do(x1.world, Quietly(CommitTxn(true))), x.progress);
    Take(x, first, x1, Quietly(CommitTxn(true)), end);
    steps := first + [Quietly(CommitTxn(true))];
  }

  lemma SendAndCommit(x: Exporter, s: Sink, t: Epoch, payload: Payload) returns (steps: seq<Step>, end: Exporter)
    requires SinkAt(x.world, s, RecoverSend(t, payload)) && Sendable(x.world) && Empty(x.world.broker, x.world.producer)
    ensures Proceeds(x, steps, end) && DeliveredFrom(x, end, AfterRecover(s, t), t)
  {
    Stay(x);
    RecoverSendStep(x.world, s, t, payload, true);
    var x1 := Exporter(Do(x.world, Quietly(Send(true))), x.progress);
    Take(x, [], x, Quietly(Send(true)), x1);
    var rest;
    rest, end := CommitSent(x1, s, t, payload);
    steps := ([] + [Quietly(Send(true))]) + rest;
    ContinuesJoin(x, [] + [Quietly(Send(true))], x1, rest, end);
  }

  /** After "absent", the envelope can be sent and committed again. */
  lemma CommitAgain(x: Exporter, s: Sink, t: Epoch, payload: Payload) returns (steps: seq<Step>, end: Exporter)
    requires SinkAt(x.world, s, RecoverBegin(t, payload)) && x.world.producer == Producer(None, [])
        && |x.world.broker.logs| > 0
    ensures Proceeds(x, steps, end) && DeliveredFrom(x, end, AfterRecover(s, t), t)
  {
    Stay(x);
    RecoverBeginStep(x.world, s, t, payload);
    var x1 := Exporter(Do(x.world, Quietly(Begin(true))), x.progress);
    Take(x, [], x, Quietly(Begin(true)), x1);
    var rest;
    rest, end := SendAndCommit(x1, s, t, payload);
    steps := ([] + [Quietly(Begin(true))]) + rest;
    ContinuesJoin(x, [] + [Quietly(Begin(true))], x1, rest, end);
  }

  lemma ClearIsStable(b: Broker, me: nat, epoch: Epoch, scan: Scan, c: Consumer)
    requires Clear(b, me, epoch, scan, c) && |c.stables| <= |b.logs|
    requires forall q :: q in Unsettled(scan) ==> q < |c.stables|
    ensures forall q :: q in Unsettled(scan) ==> Unsettled(scan)[q]
  {
    forall q | q in Unsettled(scan) ensures Unsettled(scan)[q] {
      assert PartitionClear(b, me, epoch, Unsettled(scan), c, q);
    }
  }

  /** The rest of a lookup in whose way no partition stands, from wherever it is. */
  lemma EndLookup(x: Exporter, w: World, k: Look) returns (steps: seq<Step>, end: Exporter)
    requires Quietened(x, w, k) && k.sink.connector == w.me
    requires Clear(w.broker, w.me, k.epoch, k.scan, k.consumer)
    ensures Proceeds(x, steps, end) && Absent(end, w, k) && end.progress == x.progress
    decreases k.scan.Setup?
  {
    if k.scan.Setup? {
      var n := |w.broker.logs|;
      var k1 := k.(scan := Capture(n, map[], 0, None));
      var x1 := Exporter(Looking(w, k1), x.progress);
      MetadataStep(w, k);
      FreshIsClearIff(w.broker, w.me, k.epoch, k.scan, k.consumer);
      FreshIsClearIff(w.broker, w.me, k.epoch, k1.scan, k1.consumer);
      Stay(x);
      Take(x, [], x, Quietly(Metadata(n)), x1);
      var rest;
      rest, end := EndLookup(x1, w, k1);
      ContinuesJoin(x, [] + [Quietly(Metadata(n))], x1, rest, end);
      steps := ([] + [Quietly(Metadata(n))]) + rest;
    } else if k.scan.Capture? {
      ClearIsStable(w.broker, w.me, k.epoch, k.scan, k.consumer);
      assert Unsettled(k.scan) == k.scan.unsettled;
      var first, x1, k1 := CaptureRest(x, w, k);
      var rest;
      rest, end := ReadAll(x1, w, k1);
      ContinuesJoin(x, first, x1, rest, end);
      steps := first + rest;
    } else {
      steps, end := ReadAll(x, w, k);
    }
  }

  /** A lookup that can end in "absent" can go on to deliver the epoch. */
  lemma FinishLookup(x: Exporter, w: World, k: Look) returns (steps: seq<Step>, end: Exporter)
    requires Quietened(x, w, k) && k.sink.connector == w.me && w.producer == Producer(None, [])
    requires Clear(w.broker, w.me, k.epoch, k.scan, k.consumer)
    ensures Proceeds(x, steps, end) && DeliveredFrom(x, end, AfterRecover(k.sink, k.epoch), k.epoch)
  {
    var first, x1 := EndLookup(x, w, k);
    var rest;
    rest, end := CommitAgain(x1, k.sink, k.epoch, k.payload);
    ContinuesJoin(x, first, x1, rest, end);
    steps := first + rest;
  }

  /** From a sink between calls to a lookup that is about to capture its first watermark. */
  lemma StartLookup(x: Exporter, t: Epoch) returns (steps: seq<Step>, end: Exporter, w: World, k: Look)
    requires Sound(x) && PendingEpoch(x.progress, t) && NoOpen(x.world.broker)
    requires x.world.process.Up? && x.world.process.local.pc.Ready?
    ensures Proceeds(x, steps, end) && Quietened(end, w, k) && end.progress == x.progress
    ensures w == x.world.(process := w.process, horizon := w.horizon)
    ensures var n := |w.broker.logs|;
            k == Look(x.world.process.local.sink.(clusterCommitted := t), t, w.ledger.handles[t],
                      Capture(n, map[], 0, None), Consumer([], [], seq(n, _ => 0)))
  {
    var s, last, payload := x.world.process.local.sink, x.world.process.local.pc.last, x.world.ledger.handles[t];
    Stay(x);
    CheckpointStep(x.world, s, last, t);
    w := Do(x.world, Quietly(SetClusterCommitted(t)));
    var x1 := Exporter(w, x.progress);
    Take(x, [], x, Quietly(SetClusterCommitted(t)), x1);
    var s1 := s.(clusterCommitted := t);
    var call := Quietly(RecoverCall(t, RowHandle(w.me, w.topic, t, payload)));
    RecoverCallStep(w, s1, last, t, payload);
    var k0 := Look(s1, t, payload, Setup, Consumer([], [], seq(|w.broker.logs|, _ => 0)));
    var x2 := Exporter(Looking(w, k0), x.progress);
    Take(x, [] + [Quietly(SetClusterCommitted(t))], x1, call, x2);
    MetadataStep(w, k0);
    k := k0.(scan := Capture(|w.broker.logs|, map[], 0, None));
    end := Exporter(Looking(w, k), x.progress);
    steps := [] + [Quietly(SetClusterCommitted(t))] + [call];
    Take(x, steps, x2, Quietly(Metadata(|w.broker.logs|)), end);
    steps := steps + [Quietly(Metadata(|w.broker.logs|))];
  }
}
