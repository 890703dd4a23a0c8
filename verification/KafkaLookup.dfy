/** The topic lookup: what its verdicts mean, whatever the broker does between its requests. */
module KafkaLookup {
  import opened Prelude
  import opened KafkaSinkMachine
  import opened KafkaBroker
  import opened KafkaProtocol
  import opened KafkaInvariant

  /** The process is inside a lookup. */
  ghost predicate LookingUp(w: World) { Inv(w) && w.process.Up? && w.process.local.pc.Lookup? }

  lemma SetupKeepsInv(w: World, s: Step)
    requires LookingUp(w) && Possible(w, s) && s.Client? && w.process.local.pc.scan.Setup?
    ensures Inv(Do(w, s))
  {
  }

  lemma HighKeepsInv(w: World, s: Step)
    requires LookingUp(w) && Possible(w, s) && s.Client? && w.process.local.pc.scan.Capture? && s.event.High?
    ensures Inv(Do(w, s))
  {
    var c, c' := w.process.consumer, Do(w, s).process.consumer;
    var b, pc := w.broker, w.process.local.pc;
    forall t | Own(b, t) && b.txns[t].at.Some? ensures b.txns[t].at.value < |b.logs[0]| { assert TxnOk(b, w.me, t); }
    forall q | 0 <= q < |c'.stables| ensures PartitionScanned(b, c', w.me, pc.epoch, Unsettled(pc.scan), q) {
      assert PartitionScanned(b, c, w.me, pc.epoch, Unsettled(pc.scan), q) && c'.highs[q] == c.highs[q];
    }
  }

  lemma StableKeepsInv(w: World, s: Step)
    requires LookingUp(w) && Possible(w, s) && s.Client? && w.process.local.pc.scan.Capture? && s.event.Stable?
    ensures Inv(Do(w, s))
  {
    var c, c' := w.process.consumer, Do(w, s).process.consumer;
    var b, pc := w.broker, w.process.local.pc;
    var unsettled' := pc.scan.unsettled[pc.scan.next := s.event.offset >= pc.scan.high.value];
    forall q | 0 <= q < |c'.stables| ensures PartitionScanned(b, c', w.me, pc.epoch, unsettled', q) {
      if q < |c.stables| {
        assert PartitionScanned(b, c, w.me, pc.epoch, Unsettled(pc.scan), q);
        assert c'.highs[q] == c.highs[q] && c'.stables[q] == c.stables[q];
      }
    }
    assert pc.scan.next in unsettled';
  }

  lemma CaptureKeepsInv(w: World, s: Step)
    requires LookingUp(w) && Possible(w, s) && s.Client? && w.process.local.pc.scan.Capture?
    ensures Inv(Do(w, s))
  {
    match s.event {
      case High(_) => HighKeepsInv(w, s);
      case Stable(_) => StableKeepsInv(w, s);
      case SetupFailed =>
    }
  }

  /** Reading on to `end` past nothing but uncommitted or foreign records. */
  lemma ReadOn(b: Broker, me: nat, epoch: Epoch, q: nat, from: nat, end: nat)
    requires NoMatchBelow(b, me, epoch, q, from) && NothingLanded(b, q, from, end)
    ensures NoMatchBelow(b, me, epoch, q, end)
  {
  }

  lemma NoMatchShorter(b: Broker, me: nat, epoch: Epoch, q: nat, end: nat, shorter: nat)
    requires NoMatchBelow(b, me, epoch, q, end) && shorter <= end
    ensures NoMatchBelow(b, me, epoch, q, shorter)
  {
  }

  /** A matching record with the expected bytes is the committed record of an own transaction of that epoch. */
  lemma PresentMeansLanded(b: Broker, me: nat, epoch: Epoch, q: nat, i: nat, expected: Payload)
    requires WellFormed(b, me) && InRange(b, q, i) && StatusAt(b, q, i).Landed? && b.logs[q][i].payload == expected
    requires Is(expected.connector, me) && Is(expected.epoch, epoch)
    ensures HasLanded(b, epoch)
  {
    assert EntryOk(b, me, q, i);
    var t := b.logs[q][i].txn;
    assert TxnOk(b, me, t);
    assert OwnOf(b, t, epoch);
  }

  lemma MessageKeepsInv(w: World, s: Step)
    requires LookingUp(w) && Possible(w, s) && s.Client? && w.process.local.pc.scan.Polling?
    requires s.event.Poll? && s.event.result.Message?
    ensures Inv(Do(w, s))
  {
    var b, pc, c := w.broker, w.process.local.pc, w.process.consumer;
    var Message(q, i, payload) := s.event.result;
    if !Matches(w.me, pc.epoch, payload) {
      var c' := Do(w, s).process.consumer;
      ReadOn(b, w.me, pc.epoch, q, c.positions[q], i);
      forall p | 0 <= p < |c'.stables| ensures PartitionScanned(b, c', w.me, pc.epoch, Unsettled(pc.scan), p) {
        assert PartitionScanned(b, c, w.me, pc.epoch, Unsettled(pc.scan), p);
      }
    } else if payload == pc.resend {
      PresentMeansLanded(b, w.me, pc.epoch, q, i, payload);
    }
  }

  /** The verdict "absent": below every captured high watermark no committed record of this connector and epoch. */
  ghost predicate AbsentBelowHighs(w: World, epoch: Epoch) {
    w.process.Up? &&
    var c := w.process.consumer;
    && |c.highs| == |w.broker.logs|
    && forall q {:trigger c.highs[q]} :: 0 <= q < |c.highs| ==>
         ResolvedBelow(w.broker, q, c.highs[q]) && NoMatchBelow(w.broker, w.me, epoch, q, c.highs[q])
  }

  lemma EofScan(b: Broker, c: Consumer, c': Consumer, me: nat, epoch: Epoch, unsettled: map<nat, bool>,
          left: map<nat, bool>, q: nat, end: nat)
    requires |c.highs| == |c.stables| == |c.positions| == |b.logs| && q < |b.logs|
    requires c' == c.(positions := c.positions[q := end])
    requires c.stables[q] <= end && ResolvedBelow(b, q, end) && NoMatchBelow(b, me, epoch, q, end)
    requires left == if q in unsettled && unsettled[q] then unsettled - {q} else unsettled
    requires AllScanned(b, c, me, epoch, unsettled)
    ensures AllScanned(b, c', me, epoch, left)
  {
    forall p | 0 <= p < |c'.stables| ensures PartitionScanned(b, c', me, epoch, left, p) {
      assert PartitionScanned(b, c, me, epoch, unsettled, p) && c'.stables[p] == c.stables[p];
      if p == q && q in unsettled && unsettled[q] {
        NoMatchShorter(b, me, epoch, q, end, c.highs[q]);
      }
    }
  }

  lemma EofKeepsInv(w: World, s: Step)
    requires LookingUp(w) && Possible(w, s) && s.Client? && w.process.local.pc.scan.Polling?
    requires s.event.Poll? && s.event.result.Eof?
    ensures Inv(Do(w, s))
    ensures Do(w, s).process.local.pc.RecoverBegin? ==> AbsentBelowHighs(Do(w, s), w.process.local.pc.epoch)
  {
    var b, pc, c, w' := w.broker, w.process.local.pc, w.process.consumer, Do(w, s);
    var q, unsettled := s.event.result.partition, Unsettled(pc.scan);
    var left := if q in unsettled && unsettled[q] then unsettled - {q} else unsettled;
    ReadOn(b, w.me, pc.epoch, q, c.positions[q], s.end);
    assert Scanning(b, w.producer, c, w.me, pc.epoch, pc.scan);
    EofScan(b, c, w'.process.consumer, w.me, pc.epoch, unsettled, left, q, s.end);
    if left != map[] {
      assert Unsettled(w'.process.local.pc.scan) == left;
    } else {
      forall p | 0 <= p < |c.highs|
        ensures ResolvedBelow(b, p, c.highs[p]) && NoMatchBelow(b, w.me, pc.epoch, p, c.highs[p])
      {
        assert PartitionScanned(b, w'.process.consumer, w.me, pc.epoch, left, p);
        assert p !in left;
      }
      if w.producer.current.None? { AbsentMeansNoneLanded(w, pc.epoch); }
    }
  }

  /** An "absent" verdict cannot be overtaken: if the producer holds no transaction, no attempt at the epoch has
      landed or can still land. */
  lemma AbsentMeansNoneLanded(w: World, epoch: Epoch)
    requires Core(w.broker, w.producer, w.ledger, w.horizon, w.me) && AbsentBelowHighs(w, epoch)
    requires w.producer.current.None? && OwnBelow(w.broker, w.producer, w.process.consumer.highs[0])
    ensures AllDropped(w.broker, epoch)
  {
    var b, c := w.broker, w.process.consumer;
    forall t | OwnOf(b, t, epoch) ensures b.txns[t].status.Dropped? {
      assert Own(b, t) && OwnTxnOk(b, w.producer, w.ledger, w.horizon, t);
      if b.txns[t].at.Some? {
        var i := b.txns[t].at.value;
        assert TxnOk(b, w.me, t) && EntryOk(b, w.me, 0, i) && InRange(b, 0, i);
        assert NoMatchBelow(b, w.me, epoch, 0, c.highs[0]);
      }
    }
  }

  lemma PollKeepsInv(w: World, s: Step)
    requires LookingUp(w) && Possible(w, s) && s.Client? && w.process.local.pc.scan.Polling?
    ensures Inv(Do(w, s))
  {
    if s.event.Poll? && s.event.result.Message? {
      MessageKeepsInv(w, s);
    } else if s.event.Poll? && s.event.result.Eof? {
      EofKeepsInv(w, s);
    }
  }

  // ---- Inconclusive lookups ----------------------------------------------------------------------

  /** Partition `q` was not stable through its captured high watermark. */
  predicate MarkedUnstable(l: Local, q: nat) {
    && l.pc.Lookup? && !l.pc.scan.Setup?
    && q in l.pc.scan.unsettled && !l.pc.scan.unsettled[q]
    && (l.pc.scan.Capture? ==> q < l.pc.scan.next)
  }

  /** If a record below the captured high watermark still belongs to an unresolved transaction when the stable offset is
      read, the partition is marked unstable. */
  lemma UnresolvedIsMarkedUnstable(w: World, s: Step, i: nat)
    requires LookingUp(w) && Possible(w, s) && s.Client? && s.event.Stable? && w.process.local.pc.scan.Capture?
    requires var q := w.process.local.pc.scan.next;
             InRange(w.broker, q, i) && i < w.process.local.pc.scan.high.value && StatusAt(w.broker, q, i).Open?
    ensures MarkedUnstable(Do(w, s).process.local, w.process.local.pc.scan.next)
  {
    assert ResolvedBelow(w.broker, w.process.local.pc.scan.next, s.event.offset);
  }

  /** The broker's last stable offset: nothing below it is open, and it is the end of the log or the offset of an open
      record. */
  ghost predicate LastStable(b: Broker, q: nat, n: nat) {
    ResolvedBelow(b, q, n) && (n == |b.logs[q]| || !ResolvedBelow(b, q, n + 1))
  }

  /** A record below an offset belongs to a transaction that is still open. */
  ghost predicate OpenBelow(b: Broker, q: nat, end: nat) {
    exists i: nat :: i < end && InRange(b, q, i) && StatusAt(b, q, i).Open?
  }

  /** When the stable offset read is the exact last stable offset, the partition is marked unstable if and only if a
      record below its captured high watermark is open at that moment. */
  lemma MarkedUnstableIff(w: World, s: Step)
    requires LookingUp(w) && Possible(w, s) && s.Client? && s.event.Stable? && w.process.local.pc.scan.Capture?
    requires LastStable(w.broker, w.process.local.pc.scan.next, s.event.offset)
    ensures var scan := w.process.local.pc.scan;
            MarkedUnstable(Do(w, s).process.local, scan.next) <==> OpenBelow(w.broker, scan.next, scan.high.value)
  {
    var b, q, n := w.broker, w.process.local.pc.scan.next, s.event.offset;
    var high := w.process.local.pc.scan.high.value;
    if n < high {
      assert EntryOk(b, w.me, q, n);
      assert InRange(b, q, n) && StatusAt(b, q, n).Open?;
    } else {
      forall i: nat | i < high && InRange(b, q, i) ensures !StatusAt(b, q, i).Open? { assert ResolvedBelow(b, q, n); }
    }
  }

  predicate Concluding(pc: Pc) { pc.RecoverBegin? || pc.RecoverSend? || pc.RecoverCommit? }

  /** From then on the lookup never answers "absent", whatever the broker answers: it stays marked until the recovery
      call ends, and only a new recovery call looks again. */
  lemma {:induction false} UnstableNeverAbsent(l: Local, q: nat, answers: seq<Event>)
    requires MarkedUnstable(l, q) && Trace(l, answers).Some?
    requires forall i :: 0 <= i < |answers| ==> !answers[i].RecoverCall?
    ensures var pc := Trace(l, answers).value.pc;
            !Concluding(pc) && (pc.Lookup? ==> MarkedUnstable(Trace(l, answers).value, q))
  {
    if answers != [] {
      var prefix, ev := answers[..|answers| - 1], answers[|answers| - 1];
      UnstableNeverAbsent(l, q, prefix);
      var before := Trace(l, prefix).value;
      if before.pc.Lookup? {
        var next := NextLookup(before, ev).value;
        if before.pc.scan.Polling? && ev.Poll? && ev.result.Eof? {
          var unsettled := before.pc.scan.unsettled;
          var p := ev.result.partition;
          var left := if p in unsettled && unsettled[p] then unsettled - {p} else unsettled;
          assert q in left;
        }
      }
    }
  }

  /** These answers, without a new recovery call, end the lookup in "absent". */
  ghost predicate AnswersAbsent(l: Local, answers: seq<Event>) {
    && (forall i :: 0 <= i < |answers| ==> !answers[i].RecoverCall?)
    && Trace(l, answers).Some? && Trace(l, answers).value.pc.RecoverBegin?
  }

  lemma EofAnswer(l: Local, q: nat, unsettled: map<nat, bool>)
    requires l.pc.Lookup? && l.pc.scan == Polling(unsettled) && (q in unsettled ==> unsettled[q])
    ensures var left := unsettled - {q};
            Next(l, Poll(Eof(q))) == Some(Local(l.sink, if left == map[] then RecoverBegin(l.pc.epoch, l.pc.resend)
                                                        else l.pc.(scan := Polling(left))))
  {
    if q !in unsettled { assert unsettled - {q} == unsettled; }
  }

  /** If every partition still to be read was stable, reading each to its end answers "absent". */
  lemma {:induction false} StableAnswersAbsent(l: Local, unsettled: map<nat, bool>) returns (answers: seq<Event>)
    requires l.pc.Lookup? && l.pc.scan == Polling(unsettled) && forall q :: q in unsettled ==> unsettled[q]
    ensures AnswersAbsent(l, answers)
    decreases |unsettled|
  {
    var q: nat := if unsettled == map[] then 0 else var p :| p in unsettled; p;
    var left := unsettled - {q};
    EofAnswer(l, q, unsettled);
    if left == map[] {
      answers := [Poll(Eof(q))];
      TraceCons(l, Poll(Eof(q)), []);
      assert [Poll(Eof(q))] + [] == answers;
    } else {
      var next := Next(l, Poll(Eof(q))).value;
      assert left.Keys == unsettled.Keys - {q};
      var rest := StableAnswersAbsent(next, left);
      TraceCons(l, Poll(Eof(q)), rest);
      answers := [Poll(Eof(q))] + rest;
    }
  }

  /** Exactly when a lookup whose watermarks are captured can still answer "absent": every partition still to be read
      was stable through its high watermark. */
  lemma CanAnswerAbsentIff(l: Local)
    requires l.pc.Lookup? && l.pc.scan.Polling?
    ensures (exists answers :: AnswersAbsent(l, answers)) <==>
              forall q :: q in l.pc.scan.unsettled ==> l.pc.scan.unsettled[q]
  {
    if forall q :: q in l.pc.scan.unsettled ==> l.pc.scan.unsettled[q] {
      var answers := StableAnswersAbsent(l, l.pc.scan.unsettled);
    } else {
      var q :| q in l.pc.scan.unsettled && !l.pc.scan.unsettled[q];
      forall answers: seq<Event> ensures !AnswersAbsent(l, answers) {
        if (forall i :: 0 <= i < |answers| ==> !answers[i].RecoverCall?) && Trace(l, answers).Some? {
          UnstableNeverAbsent(l, q, answers);
        }
      }
    }
  }
}
