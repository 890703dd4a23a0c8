/**
 The broker side of the sink: partition logs, transactions and the transactional producer, with the contract of
 Apache Kafka transactions (KIP-98) that the sink relies on.
 */
module KafkaBroker {
  import opened Prelude
  import opened KafkaSinkMachine

  /** `Open(true)` is a transaction whose commit was asked for and whose outcome is not known yet.
      `Landed` and `Dropped` are final. */
  datatype Status = Open(requested: bool) | Landed | Dropped

  /** What a sink transaction carries: always one record of one epoch. */
  datatype Label = Label(epoch: Epoch, payload: Payload)

  /** `own` is `None` for the transactions of other producers.  `at` is the offset of the record of an own
      transaction in partition 0, once it has been appended. */
  datatype Txn = Txn(own: Option<Label>, status: Status, at: Option<nat>)

  datatype Entry = Entry(txn: nat, payload: Payload)

  datatype Broker = Broker(logs: seq<seq<Entry>>, txns: seq<Txn>)

  /** The client side of the transactional producer.  `queue` holds records sent but not yet appended; they may
      be appended at any later time while the transaction is open. */
  datatype Producer = Producer(current: Option<nat>, queue: seq<Payload>)

  /** The consumers of one lookup: captured watermarks and read positions. */
  datatype Consumer = Consumer(highs: seq<nat>, stables: seq<nat>, positions: seq<nat>)

  /** What a failed commit or abort request did at the broker. */
  datatype Effect = Untouched | Asked | Took | Cancelled

  predicate Own(b: Broker, t: int) { 0 <= t < |b.txns| && b.txns[t].own.Some? }

  predicate OwnOf(b: Broker, t: int, epoch: Epoch) { Own(b, t) && b.txns[t].own.value.epoch == epoch }

  predicate InRange(b: Broker, q: nat, i: nat) { q < |b.logs| && i < |b.logs[q]| && b.logs[q][i].txn < |b.txns| }

  function StatusAt(b: Broker, q: nat, i: nat): Status
    requires InRange(b, q, i)
  {
    b.txns[b.logs[q][i].txn].status
  }

  /** Below `end`, partition `q` has no record of an open transaction: `end` is at most the last stable offset. */
  ghost predicate ResolvedBelow(b: Broker, q: nat, end: nat) {
    && q < |b.logs| && end <= |b.logs[q]|
    && forall i {:trigger InRange(b, q, i)} :: 0 <= i < end && InRange(b, q, i) ==> !StatusAt(b, q, i).Open?
  }

  /** No committed record between two offsets. */
  ghost predicate NothingLanded(b: Broker, q: nat, from: nat, end: nat) {
    forall i {:trigger InRange(b, q, i)} :: from <= i < end && InRange(b, q, i) ==> !StatusAt(b, q, i).Landed?
  }

  /** No committed record of this connector and epoch below an offset. */
  ghost predicate NoMatchBelow(b: Broker, me: nat, epoch: Epoch, q: nat, end: nat) {
    forall i {:trigger InRange(b, q, i)} :: 0 <= i < end && InRange(b, q, i) && StatusAt(b, q, i).Landed?
      ==> !Matches(me, epoch, b.logs[q][i].payload)
  }

  /** A record of an own transaction stands where the transaction says. */
  predicate RecordOk(b: Broker, q: nat, i: nat)
    requires q < |b.logs| && i < |b.logs[q]|
  {
    var t := b.logs[q][i].txn;
    t < |b.txns| && (b.txns[t].own.Some? ==> q == 0 && Is(b.txns[t].at, i))
  }

  predicate EntryOk(b: Broker, me: nat, q: nat, i: nat)
    requires q < |b.logs| && i < |b.logs[q]|
  {
    && RecordOk(b, q, i)
    && var entry := b.logs[q][i];
       var own := b.txns[entry.txn].own;
       if own.Some? then entry.payload == own.value.payload else !Is(entry.payload.connector, me)
  }

  /** Where a transaction says its record stands, it does. */
  predicate OffsetOk(b: Broker, t: nat)
    requires t < |b.txns| && |b.logs| > 0
  {
    var txn := b.txns[t];
    txn.at.Some? ==> txn.own.Some? && txn.at.value < |b.logs[0]| && b.logs[0][txn.at.value].txn == t
  }

  predicate TxnOk(b: Broker, me: nat, t: nat)
    requires t < |b.txns| && |b.logs| > 0
  {
    var txn := b.txns[t];
    && OffsetOk(b, t)
    && (txn.own.Some? ==>
          Is(txn.own.value.payload.connector, me) && Is(txn.own.value.payload.epoch, txn.own.value.epoch))
  }

  ghost predicate WellFormed(b: Broker, me: nat) {
    && |b.logs| > 0
    && (forall q, i {:trigger b.logs[q][i]} :: 0 <= q < |b.logs| && 0 <= i < |b.logs[q]| ==> EntryOk(b, me, q, i))
    && (forall t {:trigger b.txns[t]} :: 0 <= t < |b.txns| ==> TxnOk(b, me, t))
  }

  // ---- Broker operations ------------------------------------------------------------------

  function SetStatus(b: Broker, t: nat, status: Status): Broker
    requires t < |b.txns|
  {
    b.(txns := b.txns[t := b.txns[t].(status := status)])
  }

  function BeginOwn(b: Broker, epoch: Epoch, payload: Payload): Broker {
    b.(txns := b.txns + [Txn(Some(Label(epoch, payload)), Open(false), None)])
  }

  function BeginForeign(b: Broker): Broker {
    b.(txns := b.txns + [Txn(None, Open(false), None)])
  }

  function AppendForeign(b: Broker, t: nat, q: nat, payload: Payload): Broker
    requires q < |b.logs|
  {
    b.(logs := b.logs[q := b.logs[q] + [Entry(t, payload)]])
  }

  /** The queued record of an own transaction reaches the end of partition 0. */
  function AppendOwn(b: Broker, t: nat, payload: Payload): Broker
    requires t < |b.txns| && |b.logs| > 0
  {
    Broker(b.logs[0 := b.logs[0] + [Entry(t, payload)]], b.txns[t := b.txns[t].(at := Some(|b.logs[0]|))])
  }

  function Apply(b: Broker, t: nat, effect: Effect): Broker
    requires t < |b.txns|
  {
    match effect
    case Untouched => b
    case Asked => SetStatus(b, t, Open(true))
    case Took => SetStatus(b, t, Landed)
    case Cancelled => SetStatus(b, t, Dropped)
  }

  // ---- Growth -------------------------------------------------------------------------------

  /** What no step ever undoes: logs only grow, transactions keep their label and offset, outcomes are final. */
  ghost predicate Grows(b: Broker, b': Broker) {
    && |b.logs| == |b'.logs|
    && (forall q {:trigger b'.logs[q]} :: 0 <= q < |b.logs| ==> b.logs[q] <= b'.logs[q])
    && |b.txns| <= |b'.txns|
    && (forall t {:trigger b'.txns[t]} :: 0 <= t < |b.txns| ==> TxnGrows(b.txns[t], b'.txns[t]))
  }

  predicate TxnGrows(txn: Txn, txn': Txn) {
    && txn'.own == txn.own
    && (txn.at.Some? ==> txn'.at == txn.at)
    && (!txn.status.Open? ==> txn'.status == txn.status)
  }

  lemma InRangeGrows(b: Broker, b': Broker, me: nat, q: nat, i: nat)
    requires WellFormed(b, me) && Grows(b, b') && q < |b.logs| && i < |b.logs[q]|
    ensures InRange(b, q, i) && InRange(b', q, i) && b'.logs[q][i] == b.logs[q][i]
    ensures !StatusAt(b, q, i).Open? ==> StatusAt(b', q, i) == StatusAt(b, q, i)
  {
    assert EntryOk(b, me, q, i);
    assert b.logs[q] <= b'.logs[q];
    var t := b.logs[q][i].txn;
    assert TxnGrows(b.txns[t], b'.txns[t]);
  }

  /** What is resolved stays resolved: last stable offsets only move forward. */
  lemma ResolvedGrows(b: Broker, b': Broker, me: nat, q: nat, end: nat)
    requires WellFormed(b, me) && Grows(b, b') && ResolvedBelow(b, q, end)
    ensures ResolvedBelow(b', q, end)
  {
    assert b.logs[q] <= b'.logs[q];
    forall i | 0 <= i < end && InRange(b', q, i) ensures !StatusAt(b', q, i).Open? {
      InRangeGrows(b, b', me, q, i);
    }
  }

  /** Within the resolved part, a scan that found nothing stays right. */
  lemma NoMatchGrows(b: Broker, b': Broker, me: nat, epoch: Epoch, q: nat, end: nat)
    requires WellFormed(b, me) && Grows(b, b') && ResolvedBelow(b, q, end) && NoMatchBelow(b, me, epoch, q, end)
    ensures NoMatchBelow(b', me, epoch, q, end)
  {
    forall i | 0 <= i < end && InRange(b', q, i) && StatusAt(b', q, i).Landed?
      ensures !Matches(me, epoch, b'.logs[q][i].payload)
    {
      InRangeGrows(b, b', me, q, i);
    }
  }
}
