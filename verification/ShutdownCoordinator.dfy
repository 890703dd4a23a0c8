/**
 The shutdown coordinator as interleaved atomic steps: any number of `trigger_shutdown` callers, `mark_completed`
 callers and watchdogs share two flags and the lifecycle tracker.  One step is one atomic load, swap or store, or one
 broadcast.
 */
module ShutdownCoordinator {
  import opened Lifecycle

  /** Before the swap; won the swap and about to write `Draining`; about to broadcast; returned. */
  datatype Trigger = Calling | Writing | Sending | Returned

  /** Before storing the flag; about to write `Stopped`; returned. */
  datatype Completer = Storing | Closing | Completed

  /** Before loading the flag; saw it clear and about to write `Fatal`; ended. */
  datatype Watchdog = Asleep | Firing | Ended

  datatype Shared = Shared(
    shuttingDown: bool,
    completed: bool,
    tracker: State,
    triggers: seq<Trigger>,
    completers: seq<Completer>,
    watchdogs: seq<Watchdog>,
    drainingWrites: nat,
    broadcasts: nat,
    fatalWrites: nat)

  datatype Turn = TriggerTurn(i: nat) | CompleterTurn(i: nat) | WatchdogTurn(i: nat)

  function StepTrigger(s: Shared, i: nat): Shared
    requires i < |s.triggers|
  {
    match s.triggers[i]
    case Calling =>
      if s.shuttingDown then s.(triggers := s.triggers[i := Returned])
      else s.(shuttingDown := true, triggers := s.triggers[i := Writing])
    case Writing => s.(tracker := Draining, drainingWrites := s.drainingWrites + 1,
        triggers := s.triggers[i := Sending])
    case Sending => s.(broadcasts := s.broadcasts + 1, triggers := s.triggers[i := Returned])
    case Returned => s
  }

  function StepCompleter(s: Shared, i: nat): Shared
    requires i < |s.completers|
  {
    match s.completers[i]
    case Storing => s.(completed := true, completers := s.completers[i := Closing])
    case Closing => s.(tracker := Stopped, completers := s.completers[i := Completed])
    case Completed => s
  }

  function StepWatchdog(s: Shared, i: nat): Shared
    requires i < |s.watchdogs|
  {
    match s.watchdogs[i]
    case Asleep => s.(watchdogs := s.watchdogs[i := if s.completed then Ended else Firing])
    case Firing => s.(tracker := Fatal, fatalWrites := s.fatalWrites + 1, watchdogs := s.watchdogs[i := Ended])
    case Ended => s
  }

  function Step(s: Shared, turn: Turn): Shared {
    match turn
    case TriggerTurn(i) => if i < |s.triggers| then StepTrigger(s, i) else s
    case CompleterTurn(i) => if i < |s.completers| then StepCompleter(s, i) else s
    case WatchdogTurn(i) => if i < |s.watchdogs| then StepWatchdog(s, i) else s
  }

  function Run(s: Shared, turns: seq<Turn>): Shared {
    if turns == [] then s else Step(Run(s, turns[..|turns| - 1]), turns[|turns| - 1])
  }

  function Fresh(triggers: nat, completers: nat, watchdogs: nat, state: State): Shared {
    Shared(false, false, state, seq(triggers, _ => Calling), seq(completers, _ => Storing),
        seq(watchdogs, _ => Asleep), 0, 0, 0)
  }

  // ---- One winner ------------------------------------------------------------------------------------

  /** At most one trigger is past the swap with work left, and the counters say how far it got. */
  ghost predicate OneWinner(s: Shared) {
    && (forall i, j :: 0 <= i < j < |s.triggers| ==> !(Working(s.triggers[i]) && Working(s.triggers[j])))
    && (!s.shuttingDown ==> s.drainingWrites == 0 && s.broadcasts == 0)
    && (!s.shuttingDown ==> forall i :: 0 <= i < |s.triggers| ==> !Working(s.triggers[i]))
    && (forall i :: 0 <= i < |s.triggers| && s.triggers[i].Writing? ==> s.drainingWrites == 0 && s.broadcasts == 0)
    && (forall i :: 0 <= i < |s.triggers| && s.triggers[i].Sending? ==> s.drainingWrites == 1 && s.broadcasts == 0)
    && s.broadcasts <= s.drainingWrites <= 1
  }

  predicate Working(t: Trigger) { t.Writing? || t.Sending? }

  lemma TriggerKeepsOneWinner(s: Shared, i: nat)
    requires OneWinner(s) && i < |s.triggers|
    ensures OneWinner(StepTrigger(s, i))
  {
  }

  lemma StepKeepsOneWinner(s: Shared, turn: Turn)
    requires OneWinner(s)
    ensures OneWinner(Step(s, turn))
  {
    if turn.TriggerTurn? && turn.i < |s.triggers| {
      TriggerKeepsOneWinner(s, turn.i);
    } else {
      assert Step(s, turn).triggers == s.triggers;
    }
  }

  /** Across every interleaving of any number of callers, at most one trigger writes `Draining` and at most one
      broadcast is sent. */
  lemma {:induction false} AtMostOneBroadcast(triggers: nat, completers: nat, watchdogs: nat, state: State,
          turns: seq<Turn>)
    ensures var s := Run(Fresh(triggers, completers, watchdogs, state), turns);
            OneWinner(s) && s.drainingWrites <= 1 && s.broadcasts <= 1
  {
    if turns != [] {
      AtMostOneBroadcast(triggers, completers, watchdogs, state, turns[..|turns| - 1]);
      StepKeepsOneWinner(Run(Fresh(triggers, completers, watchdogs, state), turns[..|turns| - 1]), turns[|turns| - 1]);
    }
  }

  // ---- When Stopped is final -------------------------------------------------------------------------

  /** No trigger can still write `Draining`: none has won the swap without writing, and none can still win it. */
  ghost predicate NoLateDraining(s: Shared) {
    forall i :: 0 <= i < |s.triggers| ==> !s.triggers[i].Writing? && (s.triggers[i].Calling? ==> s.shuttingDown)
  }

  /** No watchdog can still write `Fatal`: none saw the flag clear, and none will. */
  ghost predicate NoLateFatal(s: Shared) {
    forall i :: 0 <= i < |s.watchdogs| ==> !s.watchdogs[i].Firing? && (s.watchdogs[i].Asleep? ==> s.completed)
  }

  lemma StepKeepsStopped(s: Shared, turn: Turn)
    requires NoLateFatal(s)
    ensures NoLateFatal(Step(s, turn)) && Step(s, turn).fatalWrites == s.fatalWrites
    ensures NoLateDraining(s) ==>
              NoLateDraining(Step(s, turn)) && (s.tracker == Stopped ==> Step(s, turn).tracker == Stopped)
  {
  }

  lemma {:induction false} RunKeepsStopped(s: Shared, turns: seq<Turn>)
    requires NoLateFatal(s)
    ensures NoLateFatal(Run(s, turns)) && Run(s, turns).fatalWrites == s.fatalWrites
    ensures NoLateDraining(s) && s.tracker == Stopped ==>
              NoLateDraining(Run(s, turns)) && Run(s, turns).tracker == Stopped
  {
    if turns != [] {
      RunKeepsStopped(s, turns[..|turns| - 1]);
      StepKeepsStopped(Run(s, turns[..|turns| - 1]), turns[|turns| - 1]);
    }
  }

  lemma RunTwo(s: Shared, a: Turn, b: Turn)
    ensures Run(s, [a]) == Step(s, a) && Run(s, [a, b]) == Step(Step(s, a), b)
  {
    assert [a, b][..1] == [a];
    assert [a][..0] == [];
  }

  /** Fatal is never written again, in any continuation, exactly when no watchdog saw the flag clear and none still
      can. */
  lemma FatalNeverWrittenIff(s: Shared)
    ensures (forall turns :: Run(s, turns).fatalWrites == s.fatalWrites) <==> NoLateFatal(s)
  {
    if NoLateFatal(s) {
      forall turns ensures Run(s, turns).fatalWrites == s.fatalWrites { RunKeepsStopped(s, turns); }
    } else {
      var i :| 0 <= i < |s.watchdogs| && (s.watchdogs[i].Firing? || (s.watchdogs[i].Asleep? && !s.completed));
      var turn := WatchdogTurn(i);
      RunTwo(s, turn, turn);
      assert Run(s, [turn]).fatalWrites != s.fatalWrites || Run(s, [turn, turn]).fatalWrites != s.fatalWrites;
    }
  }

  /** A stopped node stays stopped, in every continuation, exactly when no trigger can still write `Draining` and no
      watchdog can still write `Fatal`. */
  lemma StoppedIsFinalIff(s: Shared)
    requires s.tracker == Stopped
    ensures (forall turns :: Run(s, turns).tracker == Stopped) <==> NoLateDraining(s) && NoLateFatal(s)
  {
    if NoLateDraining(s) && NoLateFatal(s) {
      forall turns ensures Run(s, turns).tracker == Stopped { RunKeepsStopped(s, turns); }
    } else {
      var turn;
      if !NoLateFatal(s) {
        var i: nat :| i < |s.watchdogs| && (s.watchdogs[i].Firing? || (s.watchdogs[i].Asleep? && !s.completed));
        turn := WatchdogTurn(i);
      } else {
        var i: nat :| i < |s.triggers| && (s.triggers[i].Writing? || (s.triggers[i].Calling? && !s.shuttingDown));
        turn := TriggerTurn(i);
      }
      RunTwo(s, turn, turn);
      assert Run(s, [turn]).tracker != Stopped || Run(s, [turn, turn]).tracker != Stopped;
    }
  }

  lemma RunFour(s: Shared, a: Turn, b: Turn, c: Turn, d: Turn)
    ensures Run(s, [a, b, c]) == Step(Step(Step(s, a), b), c)
    ensures Run(s, [a, b, c, d]) == Step(Run(s, [a, b, c]), d)
  {
    RunTwo(s, a, b);
    assert [a, b, c][..2] == [a, b];
    assert [a, b, c, d][..3] == [a, b, c];
  }

  /** A run from the start in which a trigger that won before the node completed still puts it back to `Draining`. */
  lemma LateDrainingReopensStopped(state: State)
    ensures var start := Fresh(1, 1, 0, state);
            var turns := [TriggerTurn(0), CompleterTurn(0), CompleterTurn(0)];
            && Run(start, turns).tracker == Stopped && !NoLateDraining(Run(start, turns))
            && Run(start, turns + [TriggerTurn(0)]).tracker == Draining
  {
    var turns := [TriggerTurn(0), CompleterTurn(0), CompleterTurn(0)];
    RunFour(Fresh(1, 1, 0, state), TriggerTurn(0), CompleterTurn(0), CompleterTurn(0), TriggerTurn(0));
    assert turns + [TriggerTurn(0)] == [TriggerTurn(0), CompleterTurn(0), CompleterTurn(0), TriggerTurn(0)];
    assert Run(Fresh(1, 1, 0, state), turns).triggers[0].Writing?;
  }

  /** A run from the start in which a watchdog that looked before completion still puts the node to `Fatal`. */
  lemma LateFatalReopensStopped(state: State)
    ensures var start := Fresh(0, 1, 1, state);
            var turns := [WatchdogTurn(0), CompleterTurn(0), CompleterTurn(0)];
            && Run(start, turns).tracker == Stopped && !NoLateFatal(Run(start, turns))
            && Run(start, turns + [WatchdogTurn(0)]).tracker == Fatal
  {
    var turns := [WatchdogTurn(0), CompleterTurn(0), CompleterTurn(0)];
    RunFour(Fresh(0, 1, 1, state), WatchdogTurn(0), CompleterTurn(0), CompleterTurn(0), WatchdogTurn(0));
    assert turns + [WatchdogTurn(0)] == [WatchdogTurn(0), CompleterTurn(0), CompleterTurn(0), WatchdogTurn(0)];
    assert Run(Fresh(0, 1, 1, state), turns).watchdogs[0].Firing?;
  }

  /** No watchdog has looked yet when completion is marked, so none ever writes `Fatal`. */
  lemma {:induction false} NoneLookedEarly(triggers: nat, completers: nat, watchdogs: nat, state: State,
          turns: seq<Turn>)
    requires !Run(Fresh(triggers, completers, watchdogs, state), turns).completed
    requires forall i :: 0 <= i < |turns| ==> !turns[i].WatchdogTurn?
    ensures var s := Run(Fresh(triggers, completers, watchdogs, state), turns);
            s.fatalWrites == 0 && forall i :: 0 <= i < |s.watchdogs| ==> s.watchdogs[i].Asleep?
  {
    if turns != [] {
      var front := turns[..|turns| - 1];
      var s := Run(Fresh(triggers, completers, watchdogs, state), front);
      assert !s.completed;
      NoneLookedEarly(triggers, completers, watchdogs, state, front);
    }
  }

  /** When completion is marked before any watchdog looks, `Fatal` is never written, whatever happens before and after:
      `early` holds no watchdog's turn and ends with the store that marks completion. */
  lemma FatalIsNeverWritten(triggers: nat, completers: nat, watchdogs: nat, state: State, early: seq<Turn>, done: Turn,
                            more: seq<Turn>)
    requires forall i :: 0 <= i < |early| ==> !early[i].WatchdogTurn?
    requires var s := Run(Fresh(triggers, completers, watchdogs, state), early);
             !s.completed && Step(s, done).completed
    ensures var s := Run(Fresh(triggers, completers, watchdogs, state), early);
            Run(Step(s, done), more).fatalWrites == 0
  {
    NoneLookedEarly(triggers, completers, watchdogs, state, early);
    var s := Run(Fresh(triggers, completers, watchdogs, state), early);
    RunKeepsStopped(Step(s, done), more);
  }

  /** Nobody sees `Stopped` before the shutdown is marked completed, so no watchdog that looks later can fire. */
  lemma {:induction false} StoppedMeansCompleted(triggers: nat, completers: nat, watchdogs: nat, state: State,
          turns: seq<Turn>)
    requires state != Stopped
    ensures var s := Run(Fresh(triggers, completers, watchdogs, state), turns);
            && (s.tracker == Stopped ==> s.completed)
            && forall i :: 0 <= i < |s.completers| && !s.completers[i].Storing? ==> s.completed
  {
    if turns != [] {
      StoppedMeansCompleted(triggers, completers, watchdogs, state, turns[..|turns| - 1]);
    }
  }

  /** Once some trigger has returned from winning, completion has been marked and written, and no watchdog is about to
      fire, the node has stopped for good, whatever the remaining callers do. */
  lemma CleanShutdownIsFinal(triggers: nat, completers: nat, watchdogs: nat, state: State, turns: seq<Turn>,
          more: seq<Turn>)
    requires var s := Run(Fresh(triggers, completers, watchdogs, state), turns);
             && s.broadcasts == 1 && s.completed && s.tracker == Stopped
             && forall i :: 0 <= i < |s.watchdogs| ==> !s.watchdogs[i].Firing?
    ensures var s := Run(Fresh(triggers, completers, watchdogs, state), turns);
            Run(s, more).tracker == Stopped && Run(s, more).fatalWrites == s.fatalWrites
  {
    AtMostOneBroadcast(triggers, completers, watchdogs, state, turns);
    RunKeepsStopped(Run(Fresh(triggers, completers, watchdogs, state), turns), more);
  }
}
