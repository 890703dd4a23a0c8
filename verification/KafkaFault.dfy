/** The injected transaction timeout: a commit that it hits lands nothing. */
module KafkaFault {
  import opened Prelude
  import opened KafkaSinkMachine
  import opened KafkaBroker
  import opened KafkaProtocol

  /** The transaction is the sink's, and has landed or has been asked to. */
  predicate MayLand(b: Broker, t: nat) {
    && t < |b.txns| && b.txns[t].own.Some?
    && (b.txns[t].status.Landed? || (b.txns[t].status.Open? && b.txns[t].status.requested))
  }

  ghost predicate NothingMoreLands(b: Broker, b': Broker) { forall t: nat :: MayLand(b', t) ==> MayLand(b, t) }

  predicate IsCall(ev: Event) {
    || ev.PreCommitPayloadCall? || ev.PreCommitCall? || ev.CommitCall? || ev.AbortCall? || ev.NoopRecoverCall?
    || ev.RecoverCall? || ev.SetClusterCommitted?
  }

  /** The driver makes no further call. */
  ghost predicate NoCalls(steps: seq<Step>) {
    forall i :: 0 <= i < |steps| ==> !(steps[i].Client? && IsCall(steps[i].event))
  }

  /** After the call was made: it waits for its abort, has ended, or was lost in a crash. */
  predicate Aborting(w: World) {
    w.process.Up? ==> w.process.local.pc.ForcedAbort? || w.process.local.pc.Ready? || w.process.local.pc.Halted?
  }

  lemma StepLandsNothing(w: World, s: Step)
    requires Aborting(w) && Possible(w, s) && !(s.Client? && IsCall(s.event))
    ensures Aborting(Do(w, s)) && NothingMoreLands(w.broker, Do(w, s).broker)
    ensures w.process.Up? && Do(w, s).process.Up? ==>
              Do(w, s).process.local.sink.delivered == w.process.local.sink.delivered
    ensures w.process.Down? && Do(w, s).process.Up? ==> Do(w, s).process.local.sink.delivered == {}
  {
  }

  /** What the sink has marked delivered is not more than this. */
  predicate DeliveredWithin(w: World, delivered: set<Epoch>) {
    w.process.Up? ==> w.process.local.sink.delivered <= delivered
  }

  lemma {:induction false} RunLandsNothing(w: World, steps: seq<Step>, end: World, delivered: set<Epoch>)
    requires Aborting(w) && NoCalls(steps) && Run(w, steps) == Some(end) && DeliveredWithin(w, delivered)
    ensures Aborting(end) && NothingMoreLands(w.broker, end.broker) && DeliveredWithin(end, delivered)
    decreases |steps|
  {
    if steps != [] {
      var front := steps[..|steps| - 1];
      var before := Run(w, front).value;
      RunLandsNothing(w, front, before, delivered);
      StepLandsNothing(before, steps[|steps| - 1]);
    }
  }

  lemma {:induction false} RunSplit(w: World, s: Step, steps: seq<Step>)
    requires Run(w, [s] + steps).Some?
    ensures Possible(w, s) && Run(Do(w, s), steps) == Run(w, [s] + steps)
    decreases |steps|
  {
    var all := [s] + steps;
    if steps == [] {
      assert all[..0] == [] && all[0] == s;
    } else {
      var front := steps[..|steps| - 1];
      assert all[..|all| - 1] == [s] + front && all[|all| - 1] == steps[|steps| - 1];
      RunSplit(w, s, front);
    }
  }

  /** Whatever the broker answers and whatever happens besides, crashes and reconnects included: after a commit call hit
      by the timeout, until the next call, no transaction of the sink lands or is asked to that was not before, and
      nothing new is marked delivered. */
  lemma FaultLandsNothing(w: World, call: Step, more: seq<Step>, end: World)
    requires w.process.Up? && w.process.local.pc.Ready? && w.process.local.sink.topic.Some?
    requires call.Client? && call.event.CommitCall? && call.event.fault && NoCalls(more)
    requires Run(w, [call] + more) == Some(end)
    ensures NothingMoreLands(w.broker, end.broker) && DeliveredWithin(end, w.process.local.sink.delivered)
  {
    RunSplit(w, call, more);
    RunLandsNothing(Do(w, call), more, end, w.process.local.sink.delivered);
  }
}
