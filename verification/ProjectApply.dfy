/** `rockstream project apply`: applying a project's steps, recorded on disk so that an interrupted run can be
    resumed. */
module ProjectApply {

  datatype Kind = Apply | Seed

  /** What a step is recognised by: its kind, its identifier and the checksum of its file. */
  datatype Step = Step(kind: Kind, identifier: string, checksum: string)

  datatype SchemaFile = SchemaFile(file: string, checksum: string)
  datatype SeedFile = SeedFile(table: string, file: string, checksum: string)
  datatype Manifest = Manifest(schemas: seq<SchemaFile>, seeds: seq<SeedFile>)

  function SeedKey(table: string, file: string): string { table + [':'] + file }

  function SchemaSteps(files: seq<SchemaFile>): (r: seq<Step>) {
    seq(|files|, i requires 0 <= i < |files| => Step(Apply, files[i].file, files[i].checksum))
  }

  function SeedSteps(seeds: seq<SeedFile>): (r: seq<Step>) {
    seq(|seeds|, i requires 0 <= i < |seeds| => Step(Seed, SeedKey(seeds[i].table, seeds[i].file), seeds[i].checksum))
  }

  function StepsOf(m: Manifest): seq<Step> { SchemaSteps(m.schemas) + SeedSteps(m.seeds) }

  /** How the attempt at a step ends.  Refused: an error before or while it executes.  Lost: it executed, and the run
      ended before its record was written.  Torn: it executed, and the run ended while the record file was being
      rewritten, so that the next run cannot read the file and starts from an empty record. */
  datatype Fate = Completed | Refused | Lost | Torn

  /** The record file, the executions the database completed, and those of them the record does not know. */
  datatype World = World(saved: seq<Step>, executed: seq<Step>, lost: seq<Step>)

  const FRESH := World([], [], [])

  function Attempt(w: World, s: Step, fate: Fate): World {
    match fate
    case Completed => World(w.saved + [s], w.executed + [s], w.lost)
    case Refused => w
    case Lost => World(w.saved, w.executed + [s], w.lost + [s])
    case Torn => World([], w.executed + [s], w.lost + w.saved + [s])
  }

  datatype Result = Result(world: World, finished: bool)

  /** A run over the steps: recorded ones are skipped, and it stops at the first that is not completed. */
  function Run(w: World, steps: seq<Step>, fates: Step -> Fate): Result
    decreases |steps|
  {
    if steps == [] then Result(w, true)
    else if steps[0] in w.saved then Run(w, steps[1..], fates)
    else if fates(steps[0]).Completed? then Run(Attempt(w, steps[0], Completed), steps[1..], fates)
    else Result(Attempt(w, steps[0], fates(steps[0])), false)
  }

  /** The project directory: its record file, and what has happened at the database. */
  class Project {
    var saved: seq<Step>
    /** What the database has executed. */
    var executed: seq<Step>
    /** Executions that the record does not know. */
    ghost var lost: seq<Step>

    ghost function View(): World reads this { World(saved, executed, lost) }

    constructor ()
      ensures View() == FRESH
    {
      saved, executed, lost := [], [], [];
    }

    /** One loop of `run_project_apply`. */
    method RunPhase(steps: seq<Step>, fates: Step -> Fate) returns (finished: bool)
      modifies this
      ensures Result(View(), finished) == Run(old(View()), steps, fates)
    {
      for i := 0 to |steps|
        invariant Run(View(), steps[i..], fates) == Run(old(View()), steps, fates)
      {
        assert steps[i..][1..] == steps[i + 1..];
        var step := steps[i];
        if step in saved {
          continue;
        }
        if fates(step).Refused? {
          return false;
        }
        executed := executed + [step];
        if fates(step).Torn? {
          saved, lost := [], lost + saved + [step];
          return false;
        }
        if fates(step).Lost? {
          lost := lost + [step];
          return false;
        }
        saved := saved + [step];
      }
      finished := true;
    }

    /** `run_project_apply`: the schema files, then the seed files. */
    method RunProject(m: Manifest, fates: Step -> Fate) returns (finished: bool)
      modifies this
      ensures Result(View(), finished) == Run(old(View()), StepsOf(m), fates)
      ensures SchemasFirst(m, old(saved), old(executed), executed)
    {
      RunConcat(View(), SchemaSteps(m.schemas), SeedSteps(m.seeds), fates);
      SchemasComeFirst(View(), m, fates);
      finished := RunPhase(SchemaSteps(m.schemas), fates);
      if finished {
        finished := RunPhase(SeedSteps(m.seeds), fates);
      }
    }
  }

  /** A seed is executed only after every schema file, as it is now, has been executed or was found recorded. */
  ghost predicate SchemasFirst(m: Manifest, saved: seq<Step>, before: seq<Step>, after: seq<Step>) {
    && before <= after
    && forall k, i :: |before| <= k < |after| && after[k].kind == Seed && 0 <= i < |m.schemas| ==>
         Step(Apply, m.schemas[i].file, m.schemas[i].checksum) in saved + after[|before|..k]
  }

  /** What one run executes: steps of its list, and if it finishes every one that was not recorded. */
  lemma {:induction false} RunExecutes(w: World, steps: seq<Step>, fates: Step -> Fate) returns (xs: seq<Step>)
    ensures Run(w, steps, fates).world.executed == w.executed + xs
    ensures forall x :: x in xs ==> x in steps
    ensures Run(w, steps, fates).finished ==> forall s :: s in steps ==> s in w.saved + xs
    decreases |steps|
  {
    xs := [];
    if steps != [] {
      var s := steps[0];
      assert steps == [s] + steps[1..];
      if s in w.saved {
        xs := RunExecutes(w, steps[1..], fates);
      } else if fates(s).Completed? {
        var rest := RunExecutes(Attempt(w, s, Completed), steps[1..], fates);
        xs := [s] + rest;
        assert w.executed + [s] + rest == w.executed + xs;
      } else if !fates(s).Refused? {
        xs := [s];
      }
    }
  }

  lemma WhichPart(before: seq<Step>, xs: seq<Step>, ys: seq<Step>, k: nat)
    requires |before| <= k < |before + xs + ys|
    ensures k < |before| + |xs| ==> (before + xs + ys)[k] in xs
    ensures k >= |before| + |xs| ==> xs <= (before + xs + ys)[|before|..k] && ys != []
  {
    if k < |before| + |xs| {
      assert (before + xs + ys)[k] == xs[k - |before|];
    } else {
      assert (before + xs + ys)[|before|..k] == xs + ys[..k - |before| - |xs|];
    }
  }

  lemma SchemasComeFirst(w: World, m: Manifest, fates: Step -> Fate)
    ensures SchemasFirst(m, w.saved, w.executed, Run(w, StepsOf(m), fates).world.executed)
  {
    var first := Run(w, SchemaSteps(m.schemas), fates);
    RunConcat(w, SchemaSteps(m.schemas), SeedSteps(m.seeds), fates);
    var xs := RunExecutes(w, SchemaSteps(m.schemas), fates);
    var ys := [];
    if first.finished { ys := RunExecutes(first.world, SeedSteps(m.seeds), fates); }
    var before, after := w.executed, w.executed + xs + ys;
    assert after == Run(w, StepsOf(m), fates).world.executed;
    forall k, i | |before| <= k < |after| && after[k].kind == Seed && 0 <= i < |m.schemas|
      ensures Step(Apply, m.schemas[i].file, m.schemas[i].checksum) in w.saved + after[|before|..k]
    {
      WhichPart(before, xs, ys, k);
      assert SchemaSteps(m.schemas)[i] in SchemaSteps(m.schemas);
    }
  }

  /** A run finishes exactly when every step that was not recorded completes. */
  lemma {:induction false} FinishesIff(w: World, steps: seq<Step>, fates: Step -> Fate)
    ensures Run(w, steps, fates).finished <==> forall s :: s in steps ==> s in w.saved || fates(s).Completed?
    decreases |steps|
  {
    if steps != [] {
      assert steps == [steps[0]] + steps[1..];
      if steps[0] in w.saved {
        FinishesIff(w, steps[1..], fates);
      } else if fates(steps[0]).Completed? {
        FinishesIff(Attempt(w, steps[0], Completed), steps[1..], fates);
      }
    }
  }

  lemma {:induction false} RunConcat(w: World, a: seq<Step>, b: seq<Step>, fates: Step -> Fate)
    ensures Run(w, a + b, fates) ==
        if Run(w, a, fates).finished then Run(Run(w, a, fates).world, b, fates) else Run(w, a, fates)
    decreases |a|
  {
    if a == [] {
      assert a + b == b;
    } else {
      assert (a + b)[1..] == a[1..] + b;
      if a[0] in w.saved {
        RunConcat(w, a[1..], b, fates);
      } else if fates(a[0]).Completed? {
        RunConcat(Attempt(w, a[0], Completed), a[1..], b, fates);
      }
    }
  }

  // ---- Every history of runs ---------------------------------------------------------------------------

  /** One run of the command: the steps as they were then, and how their attempts ended. */
  datatype Command = Command(steps: seq<Step>, fates: Step -> Fate)

  ghost function History(w: World, commands: seq<Command>): World
    decreases |commands|
  {
    if commands == [] then w
    else History(Run(w, commands[0].steps, commands[0].fates).world, commands[1..])
  }

  ghost predicate NoRepeats(s: seq<Step>) { forall i, j :: 0 <= i < j < |s| ==> s[i] != s[j] }

  /** The record holds each step once, and every execution is either recorded or lost. */
  ghost predicate Accounted(w: World) {
    NoRepeats(w.saved) && multiset(w.executed) == multiset(w.saved) + multiset(w.lost)
  }

  lemma AttemptKeepsAccounts(w: World, s: Step, fate: Fate)
    requires Accounted(w) && s !in w.saved
    ensures Accounted(Attempt(w, s, fate))
  {
    assert multiset(w.executed + [s]) == multiset(w.executed) + multiset{s};
    assert multiset(w.lost + w.saved + [s]) == multiset(w.lost) + multiset(w.saved) + multiset{s};
  }

  lemma {:induction false} RunKeepsAccounts(w: World, steps: seq<Step>, fates: Step -> Fate)
    requires Accounted(w)
    ensures Accounted(Run(w, steps, fates).world)
    decreases |steps|
  {
    if steps != [] {
      if steps[0] in w.saved {
        RunKeepsAccounts(w, steps[1..], fates);
      } else {
        AttemptKeepsAccounts(w, steps[0], fates(steps[0]));
        if fates(steps[0]).Completed? {
          RunKeepsAccounts(Attempt(w, steps[0], Completed), steps[1..], fates);
        }
      }
    }
  }

  /** Over any history of runs, interrupted anywhere, of a project edited in any way between them: a step has been
      executed as often as its record was lost, and once more if it is recorded. */
  lemma {:induction false} ExecutionsAreAccounted(w: World, commands: seq<Command>, s: Step)
    requires Accounted(w)
    ensures Accounted(History(w, commands))
    ensures multiset(History(w, commands).executed)[s] ==
              multiset(History(w, commands).lost)[s] + if s in History(w, commands).saved then 1 else 0
    decreases |commands|
  {
    if commands == [] {
      RecordedOnce(w.saved, s);
    } else {
      RunKeepsAccounts(w, commands[0].steps, commands[0].fates);
      ExecutionsAreAccounted(Run(w, commands[0].steps, commands[0].fates).world, commands[1..], s);
    }
  }

  lemma {:induction false} RecordedOnce(saved: seq<Step>, s: Step)
    requires NoRepeats(saved)
    ensures multiset(saved)[s] == if s in saved then 1 else 0
  {
    if saved != [] {
      var front, last := saved[..|saved| - 1], saved[|saved| - 1];
      assert saved == front + [last];
      RecordedOnce(front, s);
    }
  }

  /** A run that finishes has recorded every step, and running again then does nothing, whatever would have happened. */
  lemma {:induction false} FinishedRunIsQuiet(w: World, steps: seq<Step>, fates: Step -> Fate, again: Step -> Fate)
    requires Run(w, steps, fates).finished
    ensures w.saved <= Run(w, steps, fates).world.saved
    ensures forall s :: s in steps ==> s in Run(w, steps, fates).world.saved
    ensures Run(Run(w, steps, fates).world, steps, again) == Result(Run(w, steps, fates).world, true)
  {
    FinishedRecordsAll(w, steps, fates);
    RecordedIsSkipped(Run(w, steps, fates).world, steps, again);
  }

  lemma {:induction false} FinishedRecordsAll(w: World, steps: seq<Step>, fates: Step -> Fate)
    requires Run(w, steps, fates).finished
    ensures w.saved <= Run(w, steps, fates).world.saved
    ensures forall s :: s in steps ==> s in Run(w, steps, fates).world.saved
    decreases |steps|
  {
    if steps != [] {
      var next := if steps[0] in w.saved then w else Attempt(w, steps[0], Completed);
      FinishedRecordsAll(next, steps[1..], fates);
      assert steps == [steps[0]] + steps[1..];
      assert steps[0] in next.saved;
    }
  }

  lemma {:induction false} RecordedIsSkipped(w: World, steps: seq<Step>, fates: Step -> Fate)
    requires forall s :: s in steps ==> s in w.saved
    ensures Run(w, steps, fates) == Result(w, true)
    decreases |steps|
  {
    if steps != [] {
      RecordedIsSkipped(w, steps[1..], fates);
    }
  }

  // ---- Resuming one project until it finishes -----------------------------------------------------------

  /** The steps in manifest order, each once. */
  function Distinct(steps: seq<Step>): (r: seq<Step>)
    ensures forall s :: s in r <==> s in steps
  {
    if steps == [] then []
    else
      var d := Distinct(steps[..|steps| - 1]);
      var last := steps[|steps| - 1];
      assert steps == steps[..|steps| - 1] + [last];
      if last in d then d else d + [last]
  }

  lemma {:induction false} DistinctGrows(steps: seq<Step>, i: nat)
    requires i <= |steps|
    ensures Distinct(steps[..i]) <= Distinct(steps)
    decreases |steps|
  {
    if i < |steps| {
      DistinctGrows(steps[..|steps| - 1], i);
      assert steps[..|steps| - 1][..i] == steps[..i];
    } else {
      assert steps[..i] == steps;
    }
  }

  lemma DistinctNext(steps: seq<Step>, i: nat)
    requires i < |steps|
    ensures Distinct(steps[..i + 1]) ==
              if steps[i] in Distinct(steps[..i]) then Distinct(steps[..i]) else Distinct(steps[..i]) + [steps[i]]
  {
    assert steps[..i + 1][..i] == steps[..i];
  }

  /** The record is the manifest's steps up to some point, at least up to step i. */
  ghost predicate AtStep(w: World, steps: seq<Step>, i: nat)
    requires i <= |steps|
  {
    Distinct(steps[..i]) <= w.saved <= Distinct(steps)
  }

  lemma StepForward(w: World, steps: seq<Step>, i: nat)
    requires i < |steps| && AtStep(w, steps, i)
    ensures steps[i] in w.saved ==> AtStep(w, steps, i + 1)
    ensures steps[i] !in w.saved ==> AtStep(Attempt(w, steps[i], Completed), steps, i + 1)
  {
    var d := Distinct(steps[..i]);
    DistinctNext(steps, i);
    DistinctGrows(steps, i + 1);
    if steps[i] !in d {
      NextRecorded(d, w.saved, Distinct(steps), steps[i]);
    }
  }

  /** Two prefixes of one sequence: the longer one holds what comes next after the shorter. */
  lemma NextRecorded(d: seq<Step>, saved: seq<Step>, all: seq<Step>, s: Step)
    requires d <= saved <= all && d + [s] <= all && s !in d
    ensures if s in saved then d + [s] <= saved else saved == d
  {
    assert (d + [s])[|d|] == s;
    if |d| < |saved| {
      assert saved[|d|] == all[|d|] == s;
    }
  }

  lemma {:induction false} RunKeepsOrder(w: World, steps: seq<Step>, i: nat, fates: Step -> Fate)
    requires i <= |steps| && AtStep(w, steps, i)
    ensures Run(w, steps[i..], fates).world.saved <= Distinct(steps)
    ensures Run(w, steps[i..], fates).finished ==> Run(w, steps[i..], fates).world.saved == Distinct(steps)
    decreases |steps| - i
  {
    if i == |steps| {
      assert steps[..i] == steps;
    } else {
      StepForward(w, steps, i);
      assert steps[i..][1..] == steps[i + 1..];
      if steps[i] in w.saved {
        RunKeepsOrder(w, steps, i + 1, fates);
      } else if fates(steps[i]).Completed? {
        RunKeepsOrder(Attempt(w, steps[i], Completed), steps, i + 1, fates);
      }
    }
  }

  /** Every command of the history ran the same steps. */
  ghost predicate SameSteps(commands: seq<Command>, steps: seq<Step>) {
    forall i :: 0 <= i < |commands| ==> commands[i].steps == steps
  }

  /** However often the project was interrupted, the record is a prefix of its steps in order. */
  lemma {:induction false} RecordIsAPrefix(w: World, commands: seq<Command>, steps: seq<Step>)
    requires SameSteps(commands, steps) && w.saved <= Distinct(steps)
    ensures History(w, commands).saved <= Distinct(steps)
    decreases |commands|
  {
    if commands != [] {
      RunFromStart(w, steps, commands[0].fates);
      RecordIsAPrefix(Run(w, steps, commands[0].fates).world, commands[1..], steps);
    }
  }

  lemma RunFromStart(w: World, steps: seq<Step>, fates: Step -> Fate)
    requires w.saved <= Distinct(steps)
    ensures Run(w, steps, fates).world.saved <= Distinct(steps)
    ensures Run(w, steps, fates).finished ==> Run(w, steps, fates).world.saved == Distinct(steps)
  {
    assert steps[..0] == [] && steps[0..] == steps;
    RunKeepsOrder(w, steps, 0, fates);
  }

  lemma {:induction false} NothingLostInOrder(w: World, steps: seq<Step>, fates: Step -> Fate)
    requires w.lost == [] ==> w.executed == w.saved
    ensures var r := Run(w, steps, fates).world; r.lost == [] ==> w.lost == [] && r.executed == r.saved
    decreases |steps|
  {
    if steps != [] {
      if steps[0] in w.saved {
        NothingLostInOrder(w, steps[1..], fates);
      } else if fates(steps[0]).Completed? {
        NothingLostInOrder(Attempt(w, steps[0], Completed), steps[1..], fates);
      }
    }
  }

  lemma {:induction false} HistoryInOrder(w: World, commands: seq<Command>)
    requires w.lost == [] ==> w.executed == w.saved
    ensures var r := History(w, commands); r.lost == [] ==> w.lost == [] && r.executed == r.saved
    decreases |commands|
  {
    if commands != [] {
      NothingLostInOrder(w, commands[0].steps, commands[0].fates);
      HistoryInOrder(Run(w, commands[0].steps, commands[0].fates).world, commands[1..]);
    }
  }

  /** The run ends at a step that executes and whose record is then lost: the first step it attempts in vain has such
      a fate. */
  predicate Loses(w: World, steps: seq<Step>, fates: Step -> Fate)
    decreases |steps|
  {
    if steps == [] then false
    else if steps[0] in w.saved then Loses(w, steps[1..], fates)
    else if fates(steps[0]).Completed? then Loses(Attempt(w, steps[0], Completed), steps[1..], fates)
    else !fates(steps[0]).Refused?
  }

  /** Some command of the history attempted a step that executed and whose record was lost. */
  ghost predicate EverLoses(w: World, commands: seq<Command>)
    decreases |commands|
  {
    commands != [] &&
    (Loses(w, commands[0].steps, commands[0].fates)
     || EverLoses(Run(w, commands[0].steps, commands[0].fates).world, commands[1..]))
  }

  lemma {:induction false} LostIffLoses(w: World, steps: seq<Step>, fates: Step -> Fate)
    ensures var r := Run(w, steps, fates);
            && (Loses(w, steps, fates) ==> |r.world.lost| > |w.lost| && !r.finished)
            && (!Loses(w, steps, fates) ==> r.world.lost == w.lost)
    decreases |steps|
  {
    if steps != [] {
      if steps[0] in w.saved {
        LostIffLoses(w, steps[1..], fates);
      } else if fates(steps[0]).Completed? {
        LostIffLoses(Attempt(w, steps[0], Completed), steps[1..], fates);
      }
    }
  }

  lemma {:induction false} LostIffEverLoses(w: World, commands: seq<Command>)
    ensures |History(w, commands).lost| >= |w.lost|
    ensures |History(w, commands).lost| > |w.lost| <==> EverLoses(w, commands)
    decreases |commands|
  {
    if commands != [] {
      LostIffLoses(w, commands[0].steps, commands[0].fates);
      LostIffEverLoses(Run(w, commands[0].steps, commands[0].fates).world, commands[1..]);
    }
  }

  /** A project resumed until a run finishes has executed its steps exactly once each, in order, if and only if no
      attempted step of any earlier command was lost or torn: no run ended between a step's execution and the end of
      its save. */
  lemma ExactlyOnceInOrderIff(commands: seq<Command>, steps: seq<Step>, last: Step -> Fate)
    requires SameSteps(commands, steps) && Run(History(FRESH, commands), steps, last).finished
    ensures Run(History(FRESH, commands), steps, last).world.executed == Distinct(steps) <==>
        !EverLoses(FRESH, commands)
  {
    var before := History(FRESH, commands);
    LostIffEverLoses(FRESH, commands);
    LostIffLoses(before, steps, last);
    OnceIffNothingLost(commands, steps, last);
  }

  lemma OnceIffNothingLost(commands: seq<Command>, steps: seq<Step>, last: Step -> Fate)
    requires SameSteps(commands, steps) && Run(History(FRESH, commands), steps, last).finished
    ensures var r := Run(History(FRESH, commands), steps, last).world; r.executed == Distinct(steps) <==> r.lost == []
  {
    var before := History(FRESH, commands);
    var r := Run(before, steps, last).world;
    RecordIsAPrefix(FRESH, commands, steps);
    RunFromStart(before, steps, last);
    HistoryInOrder(FRESH, commands);
    NothingLostInOrder(before, steps, last);
    assert Accounted(FRESH);
    HistoryKeepsAccounts(FRESH, commands);
    RunKeepsAccounts(before, steps, last);
    if r.executed == Distinct(steps) {
      assert |multiset(r.executed)| == |multiset(r.saved)| + |multiset(r.lost)|;
    }
  }

  lemma {:induction false} HistoryKeepsAccounts(w: World, commands: seq<Command>)
    requires Accounted(w)
    ensures Accounted(History(w, commands))
    decreases |commands|
  {
    if commands != [] {
      RunKeepsAccounts(w, commands[0].steps, commands[0].fates);
      HistoryKeepsAccounts(Run(w, commands[0].steps, commands[0].fates).world, commands[1..]);
    }
  }

  /** Any step whose record is lost once, and after which the project is resumed to the end, is executed twice. */
  lemma LostStepRunsTwice(s: Step, fate: Fate)
    requires fate.Lost? || fate.Torn?
    ensures var commands := [Command([s], _ => fate)];
            var r := Run(History(FRESH, commands), [s], _ => Completed);
            SameSteps(commands, [s]) && EverLoses(FRESH, commands) && r.finished && r.world.executed == [s, s]
  {
    var interrupted := World([], [s], [s]);
    assert Attempt(FRESH, s, fate) == interrupted;
    assert Run(FRESH, [s], _ => fate) == Result(interrupted, false);
    assert [s][1..] == [];
    assert History(FRESH, [Command([s], _ => fate)]) == interrupted;
    assert [s] + [s] == [s, s];
  }

  // ---- Seed keys ---------------------------------------------------------------------------------------

  /** One seed's table continues the other's past a colon, and the files make up for it. */
  ghost predicate Straddle(t1: string, f1: string, t2: string, f2: string) {
    |t1| < |t2| && t2[..|t1|] == t1 && t2[|t1|] == ':' && f1 == t2[|t1| + 1..] + [':'] + f2
  }

  /** Exactly when two seeds are taken for one another (given equal checksums): a colon inside the longer table name. */
  lemma SeedKeysCollideIff(t1: string, f1: string, t2: string, f2: string)
    ensures SeedKey(t1, f1) == SeedKey(t2, f2) <==>
              (t1 == t2 && f1 == f2) || Straddle(t1, f1, t2, f2) || Straddle(t2, f2, t1, f1)
  {
    if |t1| <= |t2| {
      ShorterKeyCollides(t1, f1, t2, f2);
    } else {
      ShorterKeyCollides(t2, f2, t1, f1);
    }
  }

  lemma ShorterKeyCollides(t1: string, f1: string, t2: string, f2: string)
    requires |t1| <= |t2|
    ensures SeedKey(t1, f1) == SeedKey(t2, f2) <==> (t1 == t2 && f1 == f2) || Straddle(t1, f1, t2, f2)
  {
    var k1, k2, n := SeedKey(t1, f1), SeedKey(t2, f2), |t1|;
    assert k1[..n] == t1 && k1[n] == ':' && k1[n + 1..] == f1;
    assert k2[..|t2|] == t2 && k2[|t2|] == ':' && k2[|t2| + 1..] == f2;
    if n < |t2| {
      assert k2[..n] == t2[..n] && k2[n] == t2[n] && k2[n + 1..] == t2[n + 1..] + [':'] + f2;
      assert k1 == k1[..n] + [k1[n]] + k1[n + 1..] && k2 == k2[..n] + [k2[n]] + k2[n + 1..];
    }
  }

  /** Two different seeds, the second of which is never ingested: its key and checksum are those of the first. */
  lemma StraddlingSeedIsSkipped(checksum: string, fates: Step -> Fate)
    requires forall s :: fates(s) == Completed
    ensures var m := Manifest([], [SeedFile("a", "b:c", checksum), SeedFile("a:b", "c", checksum)]);
            var r := Run(FRESH, StepsOf(m), fates);
            m.seeds[0] != m.seeds[1] && r.finished && |r.world.executed| == 1
  {
    var seeds := [SeedFile("a", "b:c", checksum), SeedFile("a:b", "c", checksum)];
    var m := Manifest([], seeds);
    var s := Step(Seed, "a:b:c", checksum);
    assert SeedKey("a", "b:c") == "a:b:c" && SeedKey("a:b", "c") == "a:b:c";
    assert StepsOf(m) == [s, s];
    assert [s, s][1..] == [s];
    var w := Attempt(FRESH, s, Completed);
    assert s in w.saved && fates(s).Completed?;
    assert [s][1..] == [] && Run(w, [s], fates) == Result(w, true);
    assert Run(FRESH, [s, s], fates) == Run(w, [s], fates);
    assert seeds[0].table != seeds[1].table;
  }
}
