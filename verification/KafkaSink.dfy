/** The sink object: the fields of `KafkaSink` and its methods, against the answers the broker gives. */
module KafkaSinkObject {
  import opened Prelude
  import opened KafkaSinkMachine
  import opened KafkaExchange
  import opened KafkaVerdict

  /** A call returns, or a halting guard fires. */
  datatype CallResult = Returned(outcome: Outcome) | Panicked

  function PcOf(r: CallResult): Pc {
    match r
    case Returned(outcome) => Ready(outcome)
    case Panicked => Halted
  }

  /** Where the machine stands after a lookup with this verdict. */
  function AfterVerdict(s: Sink, epoch: Epoch, resend: Payload, v: Verdict): Local {
    match v
    case Present => Local(AfterRecover(s, epoch), Ready(Delivered(epoch)))
    case Absent => Local(s, RecoverBegin(epoch, resend))
    case Conflict => Local(s, Ready(Failed(CommitFailed)))
    case Unknown => Local(s, Ready(Failed(DeliveryUnknown)))
  }

  /** What staging asks: a transaction, the record, and an abort if the record could not be sent. */
  function SendTrace(a: Answers): seq<Event> {
    if !a.begin then [Begin(false)]
    else if a.send then [Begin(true), Send(true)]
    else [Begin(true), Send(false), AbortTxn(a.abort)]
  }

  /** How staging ends: the epoch is added and counted, or nothing changes. */
  predicate StageEnd(s: Sink, s': Sink, epoch: Epoch, rows: nat, handle: Handle, r: CallResult, ok: bool) {
    if ok then
      && r == Returned(Staged(epoch, PreCommitted(rows, handle)))
      && s' == s.(staged := s.staged + {epoch}, count := s.count + 1)
    else r == Returned(Failed(PreCommitFailed)) && s' == s
  }

  /** The epoch is delivered and no longer staged; the counter drops if it can. */
  predicate Committing(s: Sink, s': Sink, epoch: Epoch) {
    && s' == s.(delivered := s'.delivered, staged := s'.staged, count := s'.count)
    && s'.delivered == s.delivered + {epoch} && s'.staged == s.staged - {epoch}
    && s'.count == if s.count == 0 then 0 else s.count - 1
  }

  /** The epoch is delivered and no longer staged; the counter drops if the epoch was staged. */
  predicate Recovered(s: Sink, s': Sink, epoch: Epoch) {
    && s' == s.(delivered := s'.delivered, staged := s'.staged, count := s'.count)
    && s'.delivered == s.delivered + {epoch} && s'.staged == s.staged - {epoch}
    && s'.count == if epoch in s.staged && s.count > 0 then s.count - 1 else s.count
  }

  /** What the recovery transaction asks.  A failed send is not followed by an abort. */
  function RecommitTrace(a: Answers): seq<Event> {
    if !a.begin then [Begin(false)]
    else if !a.send then [Begin(true), Send(false)]
    else [Begin(true), Send(true), CommitTxn(a.commit)]
  }

  /** How a recovery ends whose lookup has this verdict: only "absent" leads to a transaction. */
  ghost predicate RecoveryEnd(s: Sink, s': Sink, epoch: Epoch, v: Verdict, a: Answers, r: CallResult,
                              trace: seq<Event>)
  {
    match v
    case Present => r == Returned(Delivered(epoch)) && Recovered(s, s', epoch) && AllReadOnly(trace)
    case Conflict => r == Returned(Failed(CommitFailed)) && s' == s && AllReadOnly(trace)
    case Unknown => r == Returned(Failed(DeliveryUnknown)) && s' == s && AllReadOnly(trace)
    case Absent =>
      && (exists k :: 0 <= k <= |trace| && AllReadOnly(trace[..k]) && trace[k..] == RecommitTrace(a))
      && if a.begin && a.send && a.commit then r == Returned(Delivered(epoch)) && Recovered(s, s', epoch)
         else r == Returned(Failed(CommitFailed)) && s' == s
  }

  /** The partitions left after i polls: those whose end has not been seen, or that were not stable. */
  ghost predicate Waiting(captured: map<nat, bool>, left: map<nat, bool>, polls: seq<PollResult>, i: int) {
    && (forall q :: q in left <==> q in captured && !(captured[q] && EndSeen(polls, q, i)))
    && forall q :: q in left ==> left[q] == captured[q]
  }

  /** What one poll decides: an error that nothing is known, a record of the epoch that it is there, and the last
      awaited end that it is not. */
  ghost predicate Judged(me: nat, epoch: Epoch, expected: Option<Payload>, p: PollResult, partitions: map<nat, bool>,
                         verdict: Option<Verdict>, left: map<nat, bool>)
  {
    && (verdict == Some(Unknown) <==> p.PollError?)
    && (verdict == Some(Present) <==> Counts(me, epoch, p) && (expected.None? || p.payload == expected.value))
    && (verdict == Some(Conflict) <==> Counts(me, epoch, p) && expected.Some? && p.payload != expected.value)
    && (verdict == Some(Absent) <==> p.Eof? && left == map[])
    && left == partitions - (if p.Eof? && p.partition in partitions && partitions[p.partition]
                             then {p.partition} else {})
  }

  /** After i polls nothing is decided, and these partitions are awaited. */
  ghost predicate Open(me: nat, epoch: Epoch, captured: map<nat, bool>, left: map<nat, bool>, polls: seq<PollResult>,
                       i: nat)
  {
    i <= |polls| && Quiet(me, epoch, polls, i) && Waiting(captured, left, polls, i) && left != map[]
  }

  lemma PollDecides(me: nat, epoch: Epoch, expected: Option<Payload>, captured: map<nat, bool>,
                    partitions: map<nat, bool>, polls: seq<PollResult>, i: nat, verdict: Option<Verdict>,
                    left: map<nat, bool>)
    requires i < |polls| && Open(me, epoch, captured, partitions, polls, i)
    requires Judged(me, epoch, expected, polls[i], partitions, verdict, left)
    ensures verdict.None? ==> Open(me, epoch, captured, left, polls, i + 1)
    ensures verdict.Some? ==> ScanMeans(verdict.value, me, epoch, expected, captured, polls)
  {
    StillWaiting(captured, partitions, left, polls, i);
    NotReadOut(captured, partitions, polls, i);
    assert Undecided(me, epoch, captured, polls, i);
    if verdict == Some(Absent) {
      AllReadOut(captured, left, polls, i + 1);
      assert Quiet(me, epoch, polls, i + 1);
    }
  }

  lemma NeverDecided(me: nat, epoch: Epoch, expected: Option<Payload>, captured: map<nat, bool>,
                     partitions: map<nat, bool>, polls: seq<PollResult>)
    requires Open(me, epoch, captured, partitions, polls, |polls|)
    ensures ScanMeans(Unknown, me, epoch, expected, captured, polls)
  {
    NotReadOut(captured, partitions, polls, |polls|);
    assert Undecided(me, epoch, captured, polls, |polls|);
  }

  lemma EndSeenNext(polls: seq<PollResult>, q: nat, i: nat)
    requires i < |polls|
    ensures EndSeen(polls, q, i + 1) <==> EndSeen(polls, q, i) || polls[i] == Eof(q)
  {
    if EndSeen(polls, q, i) { var k :| 0 <= k < i && k < |polls| && polls[k] == Eof(q); }
  }

  lemma StillWaiting(captured: map<nat, bool>, before: map<nat, bool>, left: map<nat, bool>, polls: seq<PollResult>,
                     i: nat)
    requires i < |polls| && Waiting(captured, before, polls, i)
    requires var p := polls[i];
             left == before - (if p.Eof? && p.partition in before && before[p.partition] then {p.partition} else {})
    ensures Waiting(captured, left, polls, i + 1)
  {
    forall q ensures EndSeen(polls, q, i + 1) <==> EndSeen(polls, q, i) || polls[i] == Eof(q) {
      EndSeenNext(polls, q, i);
    }
  }

  lemma NotReadOut(captured: map<nat, bool>, left: map<nat, bool>, polls: seq<PollResult>, i: int)
    requires Waiting(captured, left, polls, i) && left != map[]
    ensures !ReadOut(captured, polls, i)
  {
    var q :| q in left;
    assert q in captured;
  }

  lemma AllReadOut(captured: map<nat, bool>, left: map<nat, bool>, polls: seq<PollResult>, i: int)
    requires Waiting(captured, left, polls, i) && left == map[]
    ensures ReadOut(captured, polls, i)
  {
    forall q | q in captured ensures captured[q] && EndSeen(polls, q, i) { assert q !in left; }
  }

  /** The first i partitions have answered both watermarks, and these are the comparisons. */
  ghost predicate Compared(marks: seq<Watermarks>, i: int, stable: map<nat, bool>) {
    && 0 <= i <= |marks| && (forall q: nat :: q in stable <==> q < i)
    && forall q :: 0 <= q < i ==> marks[q].high.Some? && marks[q].stable.Some?
                                  && stable[q] == (marks[q].stable.value >= marks[q].high.value)
  }

  lemma ComparedNext(marks: seq<Watermarks>, i: nat, stable: map<nat, bool>, mark: bool)
    requires Compared(marks, i, stable) && i < |marks| && marks[i].high.Some? && marks[i].stable.Some?
    requires mark == (marks[i].stable.value >= marks[i].high.value)
    ensures Compared(marks, i + 1, stable[i := mark])
  {
  }

  lemma ComparedAll(a: Answers, stable: map<nat, bool>)
    requires a.partitions.Some? && a.partitions.value != []
    requires Compared(a.partitions.value, |a.partitions.value|, stable)
    ensures Answerable(a) && StableOf(a) == stable
  {
  }

  lemma AllReadOnlyJoin(first: seq<Event>, second: seq<Event>)
    requires AllReadOnly(first) && AllReadOnly(second)
    ensures AllReadOnly(first + second)
  {
  }

  /** The deadline passes when the polls have run out. */
  lemma GiveUp(s: Sink, epoch: Epoch, expected: Option<Payload>, resend: Payload, partitions: map<nat, bool>,
               a: Answers, entry: Point, trace: seq<Event>)
    requires Leads(With(a), entry, trace,
                   Point(Local(s, Lookup(epoch, expected, resend, Polling(partitions))), |a.polls|))
    requires AllReadOnly(trace)
    ensures Leads(With(a), entry, trace + [DeadlinePassed], Point(AfterVerdict(s, epoch, resend, Unknown), |a.polls|))
    ensures AllReadOnly(trace + [DeadlinePassed])
  {
    More(With(a), entry, trace, Point(Local(s, Lookup(epoch, expected, resend, Polling(partitions))), |a.polls|),
         DeadlinePassed, Point(AfterVerdict(s, epoch, resend, Unknown), |a.polls|));
  }

  class KafkaSink {
    const connectorId: nat
    const topic: Option<string>
    const maxStagedEpochs: nat
    var deliveredEpochs: set<Epoch>
    var stagedEpochs: set<Epoch>
    var stagedEpochsCount: nat
    var clusterCommitted: Epoch

    /** The fields as a machine value. */
    function Model(): Sink
      reads this
    {
      Sink(connectorId, topic, deliveredEpochs, stagedEpochs, maxStagedEpochs, stagedEpochsCount, clusterCommitted)
    }

    constructor (connectorId: nat, topic: Option<string>)
      ensures Model() == FreshSink(connectorId, topic)
      ensures this.connectorId == connectorId && this.topic == topic && maxStagedEpochs == 5
      ensures deliveredEpochs == {} && stagedEpochs == {} && stagedEpochsCount == 0 && clusterCommitted == 0
    {
      this.connectorId, this.topic := connectorId, topic;
      maxStagedEpochs := MAX_STAGED_EPOCHS;
      deliveredEpochs, stagedEpochs, stagedEpochsCount, clusterCommitted := {}, {}, 0, 0;
    }

    method SetClusterCommitted(epoch: Epoch)
      modifies this`clusterCommitted
      ensures clusterCommitted == epoch
    {
      clusterCommitted := epoch;
    }

    /** `stage_payload`.  In this and the other calls, what was exchanged with the broker and how the call ended are
        exactly what the machine does with those answers. */
    method StagePayload(epoch: Epoch, rows: nat, payload: Payload, handle: Handle, answers: Answers)
      returns (r: CallResult, trace: seq<Event>)
      modifies this`stagedEpochs, this`stagedEpochsCount
      ensures Leads(With(answers), Point(EnterStage(old(Model()), epoch, rows, payload, handle), 0), trace,
          Point(Local(Model(), PcOf(r)), 0))
      ensures r.Returned? && r.outcome.Staged? <==> epoch in stagedEpochs && epoch !in old(stagedEpochs)
      ensures var refused := old(stagedEpochsCount) >= maxStagedEpochs || epoch in old(stagedEpochs);
              && trace == (if refused || topic.None? then [] else SendTrace(answers))
              && StageEnd(old(Model()), Model(), epoch, rows, handle, r,
                          !refused && (topic.None? || (answers.begin && answers.send)))
    {
      ghost var entry := EnterStage(Model(), epoch, rows, payload, handle);
      trace := [];
      if stagedEpochsCount >= maxStagedEpochs || epoch in stagedEpochs {
        return Returned(Failed(PreCommitFailed)), trace;
      }
      if topic.Some? {
        var ready;
        ready, trace := BeginAndSend(epoch, rows, payload, handle, answers);
        if !ready {
          return Returned(Failed(PreCommitFailed)), trace;
        }
      }
      stagedEpochs := stagedEpochs + {epoch};
      stagedEpochsCount := stagedEpochsCount + 1;
      r := Returned(Staged(epoch, PreCommitted(rows, handle)));
    }

    /** The transactional part of `stage_payload`: a failed send aborts. */
    method BeginAndSend(epoch: Epoch, rows: nat, payload: Payload, handle: Handle, answers: Answers)
      returns (ready: bool, trace: seq<Event>)
      ensures var staged := Ready(Staged(epoch, PreCommitted(rows, handle)));
              var end := if ready then Local(AfterStage(Model(), epoch), staged)
                         else Local(Model(), Ready(Failed(PreCommitFailed)));
              Leads(With(answers), Point(Local(Model(), StageBegin(epoch, rows, payload, handle)), 0), trace,
                  Point(end, 0))
      ensures trace == SendTrace(answers) && ready == (answers.begin && answers.send)
    {
      ghost var s, broker := Model(), With(answers);
      ghost var entry := Point(Local(s, StageBegin(epoch, rows, payload, handle)), 0);
      ghost var sending := Point(Local(s, StageSend(epoch, rows, payload, handle)), 0);
      trace := [];
      More(broker, entry, trace, entry, Begin(answers.begin), broker(entry).value.next);
      trace := trace + [Begin(answers.begin)];
      if !answers.begin {
        return false, trace;
      }
      More(broker, entry, trace, sending, Send(answers.send), broker(sending).value.next);
      trace := trace + [Send(answers.send)];
      if !answers.send {
        ghost var aborting := Point(Local(s, StageAbort(epoch)), 0);
        More(broker, entry, trace, aborting, AbortTxn(answers.abort), broker(aborting).value.next);
        trace := trace + [AbortTxn(answers.abort)];
        return false, trace;
      }
      ready := true;
    }

    method PreCommitPayload(epoch: Epoch, rows: nat, payload: Payload, answers: Answers)
      returns (r: CallResult, trace: seq<Event>)
      modifies this`stagedEpochs, this`stagedEpochsCount
      ensures Leads(With(answers),
          Point(NextCall(old(Model()), NoCall, PreCommitPayloadCall(epoch, rows, payload)).value, 0), trace,
                    Point(Local(Model(), PcOf(r)), 0))
      ensures var belongs := payload.epoch == Some(epoch) && payload.connector == Some(connectorId) && topic.Some?;
              var refused := old(stagedEpochsCount) >= maxStagedEpochs || epoch in old(stagedEpochs);
              if !belongs then r == Returned(Failed(Io)) && trace == [] && Model() == old(Model())
              else
                && trace == (if refused then [] else SendTrace(answers))
                && StageEnd(old(Model()), Model(), epoch, rows, RowHandle(connectorId, topic.value, epoch, payload), r,
                            !refused && answers.begin && answers.send)
    {
      if !ValidPayload(Model(), epoch, payload) || topic.None? {
        return Returned(Failed(Io)), [];
      }
      r, trace := StagePayload(epoch, rows, payload, RowHandle(connectorId, topic.value, epoch, payload), answers);
    }

    method PreCommit(epoch: Epoch, rows: nat, answers: Answers) returns (r: CallResult, trace: seq<Event>)
      modifies this`stagedEpochs, this`stagedEpochsCount
      ensures Leads(With(answers), Point(NextCall(old(Model()), NoCall, PreCommitCall(epoch, rows)).value, 0), trace,
                    Point(Local(Model(), PcOf(r)), 0))
      ensures var refused := old(stagedEpochsCount) >= maxStagedEpochs || epoch in old(stagedEpochs);
              && trace == (if refused || topic.None? then [] else SendTrace(answers))
              && StageEnd(old(Model()), Model(), epoch, rows, LegacyHandle(rows), r,
                          !refused && (topic.None? || (answers.begin && answers.send)))
    {
      r, trace := StagePayload(epoch, rows, Payload(None, Some(epoch), Marker(rows)), LegacyHandle(rows), answers);
    }

    method Commit(epoch: Epoch, state: SinkState, fault: bool, answers: Answers)
      returns (r: CallResult, trace: seq<Event>)
      modifies this`deliveredEpochs, this`stagedEpochs, this`stagedEpochsCount
      ensures Leads(With(answers), Point(EnterCommit(old(Model()), epoch, state, fault), 0), trace,
          Point(Local(Model(), PcOf(r)), 0))
      ensures epoch in deliveredEpochs && epoch !in old(deliveredEpochs) ==> epoch <= clusterCommitted
      ensures var guarded := clusterCommitted < epoch || epoch in old(deliveredEpochs);
              var delivers := !guarded && !state.Idle? && !fault && (topic.None? || answers.commit);
              && (r == Panicked <==> guarded)
              && (r == Returned(Delivered(epoch)) <==> delivers)
              && (!guarded && !delivers ==> r == Returned(Failed(CommitFailed)))
              && trace == (if guarded || state.Idle? || topic.None? then []
                           else if fault then [AbortTxn(answers.abort)] else [CommitTxn(answers.commit)])
              && (if delivers then Committing(old(Model()), Model(), epoch) else Model() == old(Model()))
    {
      ghost var entry, broker := Point(EnterCommit(Model(), epoch, state, fault), 0), With(answers);
      trace := [];
      if clusterCommitted < epoch || epoch in deliveredEpochs {
        return Panicked, trace;
      }
      if state.Idle? {
        return Returned(Failed(CommitFailed)), trace;
      }
      if fault {
        if topic.Some? {
          More(broker, entry, trace, entry, AbortTxn(answers.abort), broker(entry).value.next);
          trace := trace + [AbortTxn(answers.abort)];
        }
        return Returned(Failed(CommitFailed)), trace;
      }
      if topic.Some? {
        More(broker, entry, trace, entry, CommitTxn(answers.commit), broker(entry).value.next);
        trace := trace + [CommitTxn(answers.commit)];
        if !answers.commit {
          return Returned(Failed(CommitFailed)), trace;
        }
      }
      MarkCommitted(epoch);
      r := Returned(Delivered(epoch));
    }

    /** The bookkeeping at the end of `commit`. */
    method MarkCommitted(epoch: Epoch)
      modifies this`deliveredEpochs, this`stagedEpochs, this`stagedEpochsCount
      ensures Model() == AfterCommit(old(Model()), epoch) && Committing(old(Model()), Model(), epoch)
    {
      deliveredEpochs := deliveredEpochs + {epoch};
      stagedEpochs := stagedEpochs - {epoch};
      if stagedEpochsCount > 0 {
        stagedEpochsCount := stagedEpochsCount - 1;
      }
    }

    method Abort(epoch: Epoch, answers: Answers) returns (r: CallResult, trace: seq<Event>)
      modifies this`stagedEpochs, this`stagedEpochsCount
      ensures Leads(With(answers), Point(EnterAbort(old(Model()), epoch), 0), trace, Point(Local(Model(), PcOf(r)), 0))
      ensures trace == if topic.None? then [] else [AbortTxn(answers.abort)]
      ensures if topic.None? || answers.abort
              then
                && r == Returned(Discarded(epoch)) && deliveredEpochs == old(deliveredEpochs)
                && stagedEpochs == old(stagedEpochs) - {epoch}
                && stagedEpochsCount == if old(stagedEpochsCount) > 0 then old(stagedEpochsCount) - 1 else 0
              else r == Returned(Failed(Io)) && Model() == old(Model())
    {
      ghost var entry, broker := Point(EnterAbort(Model(), epoch), 0), With(answers);
      trace := [];
      if topic.Some? {
        More(broker, entry, trace, entry, AbortTxn(answers.abort), broker(entry).value.next);
        trace := trace + [AbortTxn(answers.abort)];
        if !answers.abort {
          return Returned(Failed(Io)), trace;
        }
      }
      stagedEpochs := stagedEpochs - {epoch};
      if stagedEpochsCount > 0 {
        stagedEpochsCount := stagedEpochsCount - 1;
      }
      r := Returned(Discarded(epoch));
    }

    /** The machine inside this sink's lookup. */
    ghost function At(epoch: Epoch, expected: Option<Payload>, resend: Payload, scan: Scan, polled: nat): Point
      reads this
    {
      Point(Local(Model(), Lookup(epoch, expected, resend, scan)), polled)
    }

    /** The two watermarks of one partition. */
    method CaptureOne(epoch: Epoch, expected: Option<Payload>, ghost resend: Payload, answers: Answers, i: nat,
                      ghost stable: map<nat, bool>)
      returns (mark: Option<bool>, trace: seq<Event>)
      requires answers.partitions.Some? && i < |answers.partitions.value|
      ensures var n := |answers.partitions.value|;
              var entry := At(epoch, expected, resend, AfterMarks(n, i, stable), 0);
              Leads(With(answers), entry, trace,
                    if mark.Some? then At(epoch, expected, resend, AfterMarks(n, i + 1, stable[i := mark.value]), 0)
                    else GivenUp(entry))
      ensures var m := answers.partitions.value[i];
              mark == if m.high.Some? && m.stable.Some? then Some(m.stable.value >= m.high.value) else None
      ensures AllReadOnly(trace)
    {
      var marks := answers.partitions.value;
      ghost var broker, entry := With(answers), At(epoch, expected, resend, AfterMarks(|marks|, i, stable), 0);
      trace := [];
      HighAnswer(entry, answers, i, stable);
      if marks[i].high.None? {
        More(broker, entry, trace, entry, SetupFailed, GivenUp(entry));
        return None, trace + [SetupFailed];
      }
      var high := marks[i].high.value;
      ghost var halfway := At(epoch, expected, resend, Capture(|marks|, stable, i, Some(high)), 0);
      More(broker, entry, trace, entry, High(high), halfway);
      trace := trace + [High(high)];
      StableAnswer(halfway, answers, i, stable, high);
      if marks[i].stable.None? {
        More(broker, entry, trace, halfway, SetupFailed, GivenUp(entry));
        return None, trace + [SetupFailed];
      }
      var settled := marks[i].stable.value >= high;
      More(broker, entry, trace, halfway, Stable(marks[i].stable.value),
           At(epoch, expected, resend, AfterMarks(|marks|, i + 1, stable[i := settled]), 0));
      mark, trace := Some(settled), trace + [Stable(marks[i].stable.value)];
    }

    /** The watermark loop: which partitions are stable through their high watermark, or `None` on an error. */
    method CaptureWatermarks(epoch: Epoch, expected: Option<Payload>, ghost resend: Payload, answers: Answers)
      returns (partitions: Option<map<nat, bool>>, trace: seq<Event>)
      requires answers.partitions.Some? && answers.partitions.value != []
      ensures var entry := At(epoch, expected, resend, Capture(|answers.partitions.value|, map[], 0, None), 0);
              Leads(With(answers), entry, trace,
                    if partitions.Some? then At(epoch, expected, resend, Polling(partitions.value), 0)
                    else GivenUp(entry))
      ensures partitions == (if Answerable(answers) then Some(StableOf(answers)) else None) && AllReadOnly(trace)
    {
      var marks := answers.partitions.value;
      ghost var broker, entry := With(answers), At(epoch, expected, resend, Capture(|marks|, map[], 0, None), 0);
      var stable: map<nat, bool> := map[];
      trace := [];
      var i := 0;
      while i < |marks|
        invariant 0 <= i <= |marks|
        invariant Leads(broker, entry, trace, At(epoch, expected, resend, AfterMarks(|marks|, i, stable), 0))
        invariant AllReadOnly(trace)
        invariant Compared(marks, i, stable)
      {
        ghost var asking := At(epoch, expected, resend, AfterMarks(|marks|, i, stable), 0);
        var mark, asked := CaptureOne(epoch, expected, resend, answers, i, stable);
        if mark.None? {
          Join(broker, entry, trace, asking, asked, GivenUp(entry));
          AllReadOnlyJoin(trace, asked);
          return None, trace + asked;
        }
        ComparedNext(marks, i, stable, mark.value);
        stable := stable[i := mark.value];
        Join(broker, entry, trace, asking, asked, At(epoch, expected, resend, AfterMarks(|marks|, i + 1, stable), 0));
        AllReadOnlyJoin(trace, asked);
        trace := trace + asked;
        i := i + 1;
      }
      ComparedAll(answers, stable);
      partitions := Some(stable);
    }

    /** One poll: the verdict if it decides the lookup, otherwise the partitions left. */
    method JudgePoll(epoch: Epoch, expected: Option<Payload>, ghost resend: Payload, partitions: map<nat, bool>,
            answers: Answers, i: nat)
      returns (verdict: Option<Verdict>, left: map<nat, bool>)
      requires i < |answers.polls|
      ensures With(answers)(At(epoch, expected, resend, Polling(partitions), i)) ==
                Some(Answered(Poll(answers.polls[i]),
                              if verdict.Some? then Point(AfterVerdict(Model(), epoch, resend, verdict.value), i + 1)
                              else At(epoch, expected, resend, Polling(left), i + 1)))
      ensures Judged(connectorId, epoch, expected, answers.polls[i], partitions, verdict, left)
    {
      verdict, left := None, partitions;
      match answers.polls[i] {
        case Message(_, _, payload) =>
          if Matches(connectorId, epoch, payload) {
            verdict := Some(if expected.Some? && payload != expected.value then Conflict else Present);
          }
        case Eof(p) =>
          if p in partitions && partitions[p] {
            left := partitions - {p};
          }
          if left == map[] {
            verdict := Some(Absent);
          }
        case PollError => verdict := Some(Unknown);
        case Nothing =>
      }
    }

    /** One round of the poll loop. */
    method PollOnce(epoch: Epoch, expected: Option<Payload>, ghost resend: Payload, ghost captured: map<nat, bool>,
            partitions: map<nat, bool>, answers: Answers, i: nat, ghost trace: seq<Event>)
      returns (decided: Option<Verdict>, left: map<nat, bool>)
      requires i < |answers.polls| && Open(connectorId, epoch, captured, partitions, answers.polls, i)
      requires Leads(With(answers), At(epoch, expected, resend, Polling(captured), 0), trace,
                     At(epoch, expected, resend, Polling(partitions), i))
      ensures Leads(With(answers), At(epoch, expected, resend, Polling(captured), 0), trace + [Poll(answers.polls[i])],
                    if decided.Some? then Point(AfterVerdict(Model(), epoch, resend, decided.value), i + 1)
                    else At(epoch, expected, resend, Polling(left), i + 1))
      ensures decided.None? ==> Open(connectorId, epoch, captured, left, answers.polls, i + 1)
      ensures decided.Some? ==> ScanMeans(decided.value, connectorId, epoch, expected, captured, answers.polls)
    {
      decided, left := JudgePoll(epoch, expected, resend, partitions, answers, i);
      PollDecides(connectorId, epoch, expected, captured, partitions, answers.polls, i, decided, left);
      More(With(answers), At(epoch, expected, resend, Polling(captured), 0), trace,
           At(epoch, expected, resend, Polling(partitions), i), Poll(answers.polls[i]),
           if decided.Some? then Point(AfterVerdict(Model(), epoch, resend, decided.value), i + 1)
           else At(epoch, expected, resend, Polling(left), i + 1));
    }

    /** The poll loop. */
    method ScanTopic(epoch: Epoch, expected: Option<Payload>, ghost resend: Payload, captured: map<nat, bool>,
            answers: Answers)
      returns (verdict: Verdict, trace: seq<Event>, polled: nat)
      requires captured != map[]
      ensures Leads(With(answers), At(epoch, expected, resend, Polling(captured), 0), trace,
                    Point(AfterVerdict(Model(), epoch, resend, verdict), polled))
      ensures ScanMeans(verdict, connectorId, epoch, expected, captured, answers.polls) && AllReadOnly(trace)
    {
      ghost var broker, entry := With(answers), At(epoch, expected, resend, Polling(captured), 0);
      var partitions, i := captured, 0;
      trace := [];
      while i < |answers.polls|
        invariant 0 <= i <= |answers.polls|
        invariant Leads(broker, entry, trace, At(epoch, expected, resend, Polling(partitions), i))
        invariant AllReadOnly(trace) && Open(connectorId, epoch, captured, partitions, answers.polls, i)
      {
        var decided, left := PollOnce(epoch, expected, resend, captured, partitions, answers, i, trace);
        AllReadOnlyJoin(trace, [Poll(answers.polls[i])]);
        trace, i := trace + [Poll(answers.polls[i])], i + 1;
        if decided.Some? {
          return decided.value, trace, i;
        }
        partitions := left;
      }
      NeverDecided(connectorId, epoch, expected, captured, partitions, answers.polls);
      GiveUp(Model(), epoch, expected, resend, partitions, answers, entry, trace);
      verdict, trace, polled := Unknown, trace + [DeadlinePassed], i;
    }

    /** `lookup_epoch` */
    method LookupEpoch(epoch: Epoch, expected: Option<Payload>, ghost resend: Payload, answers: Answers)
      returns (verdict: Verdict, trace: seq<Event>, polled: nat)
      ensures Leads(With(answers), At(epoch, expected, resend, Setup, 0), trace,
                    Point(AfterVerdict(Model(), epoch, resend, verdict), polled))
      ensures Means(verdict, connectorId, epoch, expected, answers) && AllReadOnly(trace)
    {
      ghost var broker, entry := With(answers), At(epoch, expected, resend, Setup, 0);
      trace := [];
      if answers.partitions.None? {
        More(broker, entry, trace, entry, SetupFailed, broker(entry).value.next);
        return Unknown, trace + [SetupFailed], 0;
      }
      var n := |answers.partitions.value|;
      More(broker, entry, trace, entry, Metadata(n), broker(entry).value.next);
      trace := trace + [Metadata(n)];
      if n == 0 {
        return Unknown, trace, 0;
      }
      var v, rest;
      v, rest, polled := ScanFrom(epoch, expected, resend, answers);
      Join(broker, entry, trace, At(epoch, expected, resend, Capture(n, map[], 0, None), 0), rest,
           Point(AfterVerdict(Model(), epoch, resend, v), polled));
      verdict, trace := v, trace + rest;
    }

    /** The lookup once the partitions are known. */
    method ScanFrom(epoch: Epoch, expected: Option<Payload>, ghost resend: Payload, answers: Answers)
      returns (verdict: Verdict, trace: seq<Event>, polled: nat)
      requires answers.partitions.Some? && answers.partitions.value != []
      ensures Leads(With(answers),
          At(epoch, expected, resend, Capture(|answers.partitions.value|, map[], 0, None), 0), trace,
                    Point(AfterVerdict(Model(), epoch, resend, verdict), polled))
      ensures Means(verdict, connectorId, epoch, expected, answers) && AllReadOnly(trace)
    {
      ghost var entry := At(epoch, expected, resend, Capture(|answers.partitions.value|, map[], 0, None), 0);
      var partitions, captures := CaptureWatermarks(epoch, expected, resend, answers);
      if partitions.None? {
        return Unknown, captures, 0;
      }
      assert 0 in StableOf(answers);
      var v, scans;
      v, scans, polled := ScanTopic(epoch, expected, resend, partitions.value, answers);
      Join(With(answers), entry, captures, At(epoch, expected, resend, Polling(partitions.value), 0), scans,
           Point(AfterVerdict(Model(), epoch, resend, v), polled));
      verdict, trace := v, captures + scans;
    }

    /** The bookkeeping at the end of a successful recovery. */
    method MarkRecovered(epoch: Epoch)
      modifies this`deliveredEpochs, this`stagedEpochs, this`stagedEpochsCount
      ensures Model() == AfterRecover(old(Model()), epoch) && Recovered(old(Model()), Model(), epoch)
    {
      deliveredEpochs := deliveredEpochs + {epoch};
      if epoch in stagedEpochs {
        stagedEpochs := stagedEpochs - {epoch};
        if stagedEpochsCount > 0 {
          stagedEpochsCount := stagedEpochsCount - 1;
        }
      } else {
        assert stagedEpochs - {epoch} == stagedEpochs;
      }
    }

    /** The recovery transaction, after the topic was found not to hold the epoch.  A failed send does not abort. */
    method Recommit(epoch: Epoch, payload: Payload, answers: Answers, ghost polled: nat)
      returns (r: CallResult, trace: seq<Event>)
      modifies this`deliveredEpochs, this`stagedEpochs, this`stagedEpochsCount
      ensures Leads(With(answers), Point(Local(old(Model()), RecoverBegin(epoch, payload)), polled), trace,
                    Point(Local(Model(), PcOf(r)), polled))
      ensures trace == RecommitTrace(answers)
      ensures if answers.begin && answers.send && answers.commit
              then r == Returned(Delivered(epoch)) && Recovered(old(Model()), Model(), epoch)
              else r == Returned(Failed(CommitFailed)) && Model() == old(Model())
    {
      ghost var s, broker := Model(), With(answers);
      ghost var entry := Point(Local(s, RecoverBegin(epoch, payload)), polled);
      ghost var sending := Point(Local(s, RecoverSend(epoch, payload)), polled);
      ghost var committing := Point(Local(s, RecoverCommit(epoch, payload)), polled);
      trace := [];
      More(broker, entry, trace, entry, Begin(answers.begin), broker(entry).value.next);
      trace := trace + [Begin(answers.begin)];
      if !answers.begin {
        return Returned(Failed(CommitFailed)), trace;
      }
      More(broker, entry, trace, sending, Send(answers.send), broker(sending).value.next);
      trace := trace + [Send(answers.send)];
      if !answers.send {
        return Returned(Failed(CommitFailed)), trace;
      }
      More(broker, entry, trace, committing, CommitTxn(answers.commit), broker(committing).value.next);
      trace := trace + [CommitTxn(answers.commit)];
      if !answers.commit {
        return Returned(Failed(CommitFailed)), trace;
      }
      MarkRecovered(epoch);
      r := Returned(Delivered(epoch));
    }

    /** `recover` for `RerunCommit`. */
    method Recover(epoch: Epoch, handle: Handle, answers: Answers)
      returns (r: CallResult, trace: seq<Event>, polled: nat)
      modifies this`deliveredEpochs, this`stagedEpochs, this`stagedEpochsCount
      ensures Leads(With(answers), Point(EnterRecover(old(Model()), epoch, handle), 0), trace,
          Point(Local(Model(), PcOf(r)), polled))
      ensures var row := !handle.LegacyHandle?;
              var halts := row && clusterCommitted < epoch;
              var belongs := handle.RowHandle? ==>
                && handle.connector == connectorId && handle.epoch == epoch && topic == Some(handle.topic)
                && handle.payload.epoch == Some(epoch) && handle.payload.connector == Some(connectorId);
              if halts then r == Panicked && trace == [] && Model() == old(Model())
              else if handle.BrokenRowHandle? || !belongs
              then r == Returned(Failed(Io)) && trace == [] && Model() == old(Model())
              else if topic.None?
              then r == Returned(Delivered(epoch)) && trace == [] && Recovered(old(Model()), Model(), epoch)
              else
                var expected := if row then Some(handle.payload) else None;
                forall v :: Means(v, connectorId, epoch, expected, answers) ==>
                              RecoveryEnd(old(Model()), Model(), epoch, v, answers, r, trace)
    {
      trace, polled := [], 0;
      var expected: Option<Payload> := None;
      if !handle.LegacyHandle? {
        if clusterCommitted < epoch {
          return Panicked, trace, 0;
        }
        if handle.BrokenRowHandle? {
          return Returned(Failed(Io)), trace, 0;
        }
        if handle.connector != connectorId || handle.epoch != epoch || topic.None? || handle.topic != topic.value
          || !ValidPayload(Model(), epoch, handle.payload)
        {
          return Returned(Failed(Io)), trace, 0;
        }
        expected := Some(handle.payload);
      }
      var resend := if handle.RowHandle? then handle.payload
                    else Payload(None, Some(epoch), Marker(if handle.LegacyHandle? then handle.rows else 0));
      if topic.None? {
        MarkRecovered(epoch);
        return Returned(Delivered(epoch)), trace, 0;
      }
      r, trace, polled := CheckBeforeCommit(epoch, expected, resend, answers);
    }

    /** Ask the topic first, and commit again only if the epoch is absent. */
    method CheckBeforeCommit(epoch: Epoch, expected: Option<Payload>, resend: Payload, answers: Answers)
      returns (r: CallResult, trace: seq<Event>, polled: nat)
      modifies this`deliveredEpochs, this`stagedEpochs, this`stagedEpochsCount
      ensures Leads(With(answers), Point(Local(old(Model()), Lookup(epoch, expected, resend, Setup)), 0), trace,
                    Point(Local(Model(), PcOf(r)), polled))
      ensures forall v :: Means(v, connectorId, epoch, expected, answers) ==>
                            RecoveryEnd(old(Model()), Model(), epoch, v, answers, r, trace)
    {
      ghost var entry, s := At(epoch, expected, resend, Setup, 0), Model();
      var verdict;
      verdict, trace, polled := LookupEpoch(epoch, expected, resend, answers);
      forall v | Means(v, connectorId, epoch, expected, answers) ensures v == verdict {
        if Answerable(answers) {
          OneVerdict(v, verdict, connectorId, epoch, expected, StableOf(answers), answers.polls);
        }
      }
      match verdict {
        case Present =>
          MarkRecovered(epoch);
          r := Returned(Delivered(epoch));
        case Conflict => r := Returned(Failed(CommitFailed));
        case Unknown => r := Returned(Failed(DeliveryUnknown));
        case Absent =>
          var rest;
          r, rest := Recommit(epoch, resend, answers, polled);
          Join(With(answers), entry, trace, Point(Local(s, RecoverBegin(epoch, resend)), polled), rest,
              Point(Local(Model(), PcOf(r)), polled));
          trace := trace + rest;
          assert trace[..|trace| - |rest|] + rest == trace;
      }
    }
  }
}
