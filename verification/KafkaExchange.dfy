/** What a sink call exchanges with the broker, given what the broker will answer. */
module KafkaExchange {
  import opened Prelude
  import opened KafkaSinkMachine

  /** The two watermark requests of one partition; `None` is an error. */
  datatype Watermarks = Watermarks(high: Option<nat>, stable: Option<nat>)

  /** Everything the broker will answer during one call.  `partitions` is `None` when the consumer setup or the metadata
      request fails; the poll answers run out when the deadline passes. */
  datatype Answers = Answers(
    begin: bool, send: bool, commit: bool, abort: bool,
    partitions: Option<seq<Watermarks>>,
    polls: seq<PollResult>)

  /** The answer to the request the machine is waiting for. */
  function Offered(pc: Pc, a: Answers, polled: nat): Event {
    match pc
    case StageBegin(_, _, _, _) => Begin(a.begin)
    case RecoverBegin(_, _) => Begin(a.begin)
    case StageSend(_, _, _, _) => Send(a.send)
    case RecoverSend(_, _) => Send(a.send)
    case CommitOpen(_) => CommitTxn(a.commit)
    case RecoverCommit(_, _) => CommitTxn(a.commit)
    case StageAbort(_) => AbortTxn(a.abort)
    case ForcedAbort(_) => AbortTxn(a.abort)
    case AbortOpen(_) => AbortTxn(a.abort)
    case Lookup(_, _, _, scan) => OfferedScan(scan, a, polled)
    case _ => DeadlinePassed
  }

  function OfferedScan(scan: Scan, a: Answers, polled: nat): Event {
    match scan
    case Setup => if a.partitions.None? then SetupFailed else Metadata(|a.partitions.value|)
    case Capture(_, _, next, high) =>
      if a.partitions.None? || next >= |a.partitions.value| then SetupFailed
      else
        var marks := a.partitions.value[next];
        if high.None? then (if marks.high.None? then SetupFailed else High(marks.high.value))
        else if marks.stable.None? then SetupFailed
        else Stable(marks.stable.value)
    case Polling(_) => if polled < |a.polls| then Poll(a.polls[polled]) else DeadlinePassed
  }

  /** A point of a call: where the machine is, and how many polls have been answered. */
  datatype Point = Point(local: Local, polled: nat)

  datatype Answered = Answered(event: Event, next: Point)

  type Broker = Point -> Option<Answered>

  function Answer(p: Point, a: Answers): Option<Answered> {
    var ev := Offered(p.local.pc, a, p.polled);
    var l := Next(p.local, ev);
    if l.None? then None else Some(Answered(ev, Point(l.value, if ev.Poll? then p.polled + 1 else p.polled)))
  }

  /** The broker that gives these answers. */
  function With(a: Answers): Broker { p => Answer(p, a) }

  /** The exchange `trace` with the broker leads from one point to another: every event is the answer to the request the
      machine waits for. */
  ghost predicate Leads(broker: Broker, from: Point, trace: seq<Event>, to: Point)
    decreases |trace|
  {
    if trace == [] then to == from
    else
      && broker(from).Some? && trace[0] == broker(from).value.event
      && Leads(broker, broker(from).value.next, trace[1..], to)
  }

  /** Exchanges compose. */
  lemma {:induction false} Join(broker: Broker, from: Point, first: seq<Event>, mid: Point, second: seq<Event>,
          to: Point)
    requires Leads(broker, from, first, mid) && Leads(broker, mid, second, to)
    ensures Leads(broker, from, first + second, to)
    decreases |first|
  {
    if first == [] {
      assert first + second == second;
    } else {
      Join(broker, broker(from).value.next, first[1..], mid, second, to);
      assert (first + second)[0] == first[0] && (first + second)[1..] == first[1..] + second;
    }
  }

  lemma More(broker: Broker, from: Point, trace: seq<Event>, mid: Point, ev: Event, to: Point)
    requires Leads(broker, from, trace, mid) && broker(mid) == Some(Answered(ev, to))
    ensures Leads(broker, from, trace + [ev], to)
  {
    assert [ev][1..] == [];
    Join(broker, from, trace, mid, [ev], to);
  }

  /** From one start, of two exchanges that end where no answer is awaited neither is longer. */
  lemma {:induction false} SameEnd(broker: Broker, from: Point, t: seq<Event>, p: Point, u: seq<Event>, q: Point)
    requires Leads(broker, from, t, p) && Leads(broker, from, u, q) && broker(p).None? && broker(q).None?
    ensures t == u && p == q
    decreases |t|
  {
    if broker(from).Some? {
      assert t == [t[0]] + t[1..] && u == [u[0]] + u[1..];
      SameEnd(broker, broker(from).value.next, t[1..], p, u[1..], q);
    }
  }

  /** The answers determine a whole call: what is asked, in which order, and how it ends. */
  lemma CallIsDetermined(a: Answers, from: Point, t: seq<Event>, p: Point, u: seq<Event>, q: Point)
    requires Leads(With(a), from, t, p) && Leads(With(a), from, u, q) && Over(p.local.pc) && Over(q.local.pc)
    ensures t == u && p == q
  {
    OverIsLast(p, a);
    OverIsLast(q, a);
    SameEnd(With(a), from, t, p, u, q);
  }

  /** A call is over when it has returned or a guard has fired. */
  predicate Over(pc: Pc) { pc.Ready? || pc.Halted? }

  lemma OverIsLast(p: Point, a: Answers)
    requires Over(p.local.pc)
    ensures With(a)(p).None?
  {
  }

  /** An exchange is a trace of the machine. */
  lemma {:induction false} ExchangeIsTrace(a: Answers, from: Point, trace: seq<Event>, to: Point)
    requires Leads(With(a), from, trace, to)
    ensures Trace(from.local, trace) == Some(to.local)
    decreases |trace|
  {
    if trace != [] {
      var answered := Answer(from, a).value;
      ExchangeIsTrace(a, answered.next, trace[1..], to);
      TraceCons(from.local, answered.event, trace[1..]);
      assert trace == [answered.event] + trace[1..];
    }
  }

  // ---- One partition of the watermark loop ----------------------------------------------------------

  /** Where the watermark loop stands after i partitions. */
  function AfterMarks(total: nat, i: nat, stable: map<nat, bool>): Scan {
    if i < total then Capture(total, stable, i, None) else Polling(stable)
  }

  function GivenUp(p: Point): Point { Point(Local(p.local.sink, Ready(Failed(DeliveryUnknown))), p.polled) }

  function Scanned(p: Point, scan: Scan): Point
    requires p.local.pc.Lookup?
  {
    Point(Local(p.local.sink, p.local.pc.(scan := scan)), p.polled)
  }

  predicate Capturing(p: Point, a: Answers, i: nat, stable: map<nat, bool>, high: Option<nat>) {
    && p.local.pc.Lookup? && a.partitions.Some? && i < |a.partitions.value|
    && p.local.pc.scan == Capture(|a.partitions.value|, stable, i, high)
  }

  lemma HighAnswer(p: Point, a: Answers, i: nat, stable: map<nat, bool>)
    requires Capturing(p, a, i, stable, None)
    ensures var mark := a.partitions.value[i].high;
            With(a)(p) == Some(if mark.None? then Answered(SetupFailed, GivenUp(p))
                               else Answered(High(mark.value),
                                   Scanned(p, Capture(|a.partitions.value|, stable, i, mark))))
  {
  }

  lemma StableAnswer(p: Point, a: Answers, i: nat, stable: map<nat, bool>, high: nat)
    requires Capturing(p, a, i, stable, Some(high))
    ensures var mark, n := a.partitions.value[i].stable, |a.partitions.value|;
            With(a)(p) == Some(if mark.None? then Answered(SetupFailed, GivenUp(p))
                               else Answered(Stable(mark.value),
                                   Scanned(p, AfterMarks(n, i + 1, stable[i := mark.value >= high]))))
  {
  }
}
