/** Fail-closed reconciliation of listed test cases with the terminal events that were really observed. */
module TestAccounting {
  import opened Prelude

  datatype Target = Target(package: string, kind: string, name: string)

  /** One JSON event; missing fields are `None`. */
  datatype Event = Event(kind: Option<string>, event: Option<string>, name: Option<string>, stdout: string)

  datatype Outcome = NotSelected | NotRun | Limitation | UnexpectedSkip | FailedCase | Passed

  datatype Item = Item(id: string, outcome: Outcome)

  datatype Violation =
    | DuplicateListed
    | MissingSelected
    | ZeroSelected
    | DuplicateTerminal(name: Option<string>)
    | UnselectedExecuted(name: Option<string>)
    | BadCase(id: string, outcome: Outcome)
    | AbsentFromList(name: Option<string>)
    | NothingMandatory

  function CaseId(t: Target, test: string): string {
    t.package + "::" + t.kind + "/" + t.name + "::" + test
  }

  /** A terminal libtest event. */
  predicate Terminal(e: Event) {
    e.kind == Some("test") && (e.event == Some("ok") || e.event == Some("failed") || e.event == Some("ignored"))
  }

  function SetOf(names: seq<string>): set<string> { set n | n in names }

  /** The names that must be executed: an explicit selection, else everything listed. */
  function Selected(listed: seq<string>, cases: Option<seq<string>>): set<string> {
    if cases.Some? then SetOf(cases.value) else SetOf(listed)
  }

  /** The last terminal event of each name. */
  function TerminalOf(events: seq<Event>): map<Option<string>, Event> {
    if events == [] then map[]
    else
      var e, before := events[|events| - 1], TerminalOf(events[..|events| - 1]);
      if Terminal(e) then before[e.name := e] else before
  }

  /** The verdict on one listed case.  `skipped` recognises a skip marker in the captured output. */
  function Judge(t: Target, test: string, selected: set<string>, terminal: map<Option<string>, Event>,
                 waivers: set<string>, skipped: string -> bool): Outcome
  {
    if test !in selected then NotSelected
    else if Some(test) !in terminal then NotRun
    else
      var e := terminal[Some(test)];
      if e.event == Some("ignored") then (if CaseId(t, test) in waivers then Limitation else UnexpectedSkip)
      else if skipped(e.stdout) then UnexpectedSkip
      else if e.event == Some("failed") then FailedCase
      else Passed
  }

  predicate Acceptable(o: Outcome) { o.NotSelected? || o.Limitation? || o.Passed? }

  function Count(items: seq<Item>, o: Outcome): nat {
    if items == [] then 0 else Count(items[..|items| - 1], o) + if items[|items| - 1].outcome == o then 1 else 0
  }

  // ---- What a clean report promises --------------------------------------------------------------

  ghost predicate Distinct<T>(s: seq<T>) { forall i, j :: 0 <= i < j < |s| ==> s[i] != s[j] }

  /** Terminal events never repeat a name and only ever name selected cases. */
  ghost predicate EventsClean(events: seq<Event>, selected: set<string>) {
    && (forall i, j :: 0 <= i < j < |events| && Terminal(events[i]) && Terminal(events[j]) ==>
        events[i].name != events[j].name)
    && (forall i :: 0 <= i < |events| && Terminal(events[i]) ==>
        events[i].name.Some? && events[i].name.value in selected)
  }

  /** This event is what a mandatory case must have produced. */
  predicate Satisfies(t: Target, test: string, e: Event, waivers: set<string>, skipped: string -> bool) {
    && Terminal(e) && e.name == Some(test)
    && if e.event == Some("ignored") then CaseId(t, test) in waivers
       else e.event == Some("ok") && !skipped(e.stdout)
  }

  /** The promise: listed names are unique, the selection is listed and nonempty where that is required, terminal
      events and selected cases correspond one to one, each selected case passed without a skip marker or is a waived
      ignore, and a nonempty selection has a case that is not waived. */
  ghost predicate Accounted(t: Target, listed: seq<string>, events: seq<Event>, waivers: set<string>,
                            cases: Option<seq<string>>, skipped: string -> bool)
  {
    var selected := Selected(listed, cases);
    && Distinct(listed)
    && selected <= SetOf(listed)
    && (t.kind == "test" || cases.Some? ==> selected != {})
    && EventsClean(events, selected)
    && (forall n :: n in selected ==> exists i :: 0 <= i < |events| && Satisfies(t, n, events[i], waivers, skipped))
    && (selected != {} ==> exists n :: n in selected && CaseId(t, n) !in waivers)
  }

  /** Event k is the last terminal event of this name. */
  ghost predicate Last(events: seq<Event>, name: Option<string>, k: int) {
    && 0 <= k < |events| && Terminal(events[k]) && events[k].name == name
    && forall j :: k < j < |events| && Terminal(events[j]) ==> events[j].name != name
  }

  ghost predicate Occurs(events: seq<Event>, name: Option<string>) {
    exists k :: 0 <= k < |events| && Terminal(events[k]) && events[k].name == name
  }

  /** What the outcome reported for a listed case means, in terms of the events alone: its last terminal event, if it
      has one, decides. */
  ghost predicate Means(o: Outcome, t: Target, test: string, selected: set<string>, events: seq<Event>,
                        waivers: set<string>, skipped: string -> bool)
  {
    match o
    case NotSelected => test !in selected
    case NotRun => test in selected && !Occurs(events, Some(test))
    case Limitation =>
      test in selected && CaseId(t, test) in waivers
      && exists k :: Last(events, Some(test), k) && events[k].event == Some("ignored")
    case UnexpectedSkip =>
      test in selected
      && exists k :: Last(events, Some(test), k)
                     && if events[k].event == Some("ignored") then CaseId(t, test) !in waivers
                        else skipped(events[k].stdout)
    case FailedCase =>
      test in selected
      && exists k :: Last(events, Some(test), k) && events[k].event == Some("failed") && !skipped(events[k].stdout)
    case Passed =>
      test in selected
      && exists k :: Last(events, Some(test), k) && events[k].event == Some("ok") && !skipped(events[k].stdout)
  }

  /** What each reported violation says. */
  ghost predicate Violated(v: Violation, t: Target, listed: seq<string>, events: seq<Event>, waivers: set<string>,
                           cases: Option<seq<string>>, skipped: string -> bool)
  {
    var selected := Selected(listed, cases);
    match v
    case DuplicateListed => !Distinct(listed)
    case MissingSelected => !(selected <= SetOf(listed))
    case ZeroSelected => selected == {} && (t.kind == "test" || cases.Some?)
    case DuplicateTerminal(name) => Repeated(events, name)
    case UnselectedExecuted(name) => Occurs(events, name) && !(name.Some? && name.value in selected)
    case BadCase(id, o) =>
      !Acceptable(o)
      && exists i :: 0 <= i < |listed| && id == CaseId(t, listed[i])
                     && Means(o, t, listed[i], selected, events, waivers, skipped)
    case AbsentFromList(name) => Occurs(events, name) && !(name.Some? && name.value in listed)
    case NothingMandatory => selected != {} && forall n :: n in selected ==> CaseId(t, n) in waivers
  }

  /** Two terminal events have this name. */
  ghost predicate Repeated(events: seq<Event>, name: Option<string>) {
    exists i, j :: 0 <= i < j < |events| && Terminal(events[i]) && Terminal(events[j])
                   && events[i].name == events[j].name == name
  }

  /** The selected names with a success that shows no skip marker. */
  ghost function PassedNames(selected: set<string>, events: seq<Event>, skipped: string -> bool): set<string> {
    set n | n in selected && exists k :: 0 <= k < |events| && events[k].kind == Some("test")
                                         && events[k].event == Some("ok") && events[k].name == Some(n)
                                         && !skipped(events[k].stdout)
  }

  // ---- The program ---------------------------------------------------------------------------------

  /** Reading the events: the table of terminal events, and errors exactly when the events are not clean. */
  method ReadEvents(events: seq<Event>, selected: set<string>)
    returns (terminal: map<Option<string>, Event>, errors: seq<Violation>)
    ensures terminal == TerminalOf(events)
    ensures errors == [] <==> EventsClean(events, selected)
    ensures forall v :: v in errors <==> EventProblem(v, events, selected)
  {
    terminal, errors := map[], [];
    for i := 0 to |events|
      invariant terminal == TerminalOf(events[..i])
      invariant forall v :: v in errors <==> EventProblem(v, events[..i], selected)
    {
      var e := events[i];
      assert events[..i + 1][..i] == events[..i] && events[..i] + [e] == events[..i + 1];
      ProblemExtend(events[..i], e, selected);
      if Terminal(e) {
        var problems := EventProblems(e, e.name in terminal, selected);
        errors := errors + problems;
        terminal := terminal[e.name := e];
      }
    }
    assert events[..|events|] == events;
    NoProblemIff(events, selected);
    assert errors != [] ==> errors[0] in errors;
  }

  /** What is wrong with one more terminal event. */
  method EventProblems(e: Event, repeated: bool, selected: set<string>) returns (problems: seq<Violation>)
    ensures forall v :: v in problems <==>
              || (repeated && v == DuplicateTerminal(e.name))
              || (!(e.name.Some? && e.name.value in selected) && v == UnselectedExecuted(e.name))
  {
    problems := [];
    if repeated {
      problems := problems + [DuplicateTerminal(e.name)];
    }
    if e.name.None? || e.name.value !in selected {
      problems := problems + [UnselectedExecuted(e.name)];
    }
  }

  lemma NoProblemIff(events: seq<Event>, selected: set<string>)
    ensures (forall v :: !EventProblem(v, events, selected)) <==> EventsClean(events, selected)
  {
    if !EventsClean(events, selected) {
      var v := EventViolated(events, selected);
    }
  }

  ghost predicate EventProblem(v: Violation, events: seq<Event>, selected: set<string>) {
    match v
    case DuplicateTerminal(name) => Repeated(events, name)
    case UnselectedExecuted(name) => Occurs(events, name) && !(name.Some? && name.value in selected)
    case _ => false
  }

  lemma ProblemExtend(events: seq<Event>, e: Event, selected: set<string>)
    ensures forall v :: EventProblem(v, events + [e], selected) <==>
              || EventProblem(v, events, selected)
              || (Terminal(e) && e.name in TerminalOf(events) && v == DuplicateTerminal(e.name))
              || (Terminal(e) && !(e.name.Some? && e.name.value in selected) && v == UnselectedExecuted(e.name))
  {
    forall name
      ensures Occurs(events + [e], name) <==> Occurs(events, name) || (Terminal(e) && e.name == name)
      ensures Repeated(events + [e], name) <==>
                Repeated(events, name) || (Terminal(e) && e.name == name && Occurs(events, name))
    {
      OccursExtend(events, e, name);
      RepeatedExtend(events, e, name);
    }
    TerminalNames(events, e.name);
  }

  lemma OccursExtend(events: seq<Event>, e: Event, name: Option<string>)
    ensures Occurs(events + [e], name) <==> Occurs(events, name) || (Terminal(e) && e.name == name)
  {
    var more := events + [e];
    assert forall i :: 0 <= i < |events| ==> more[i] == events[i];
    assert more[|events|] == e;
  }

  lemma RepeatedExtend(events: seq<Event>, e: Event, name: Option<string>)
    ensures Repeated(events + [e], name) <==>
              Repeated(events, name) || (Terminal(e) && e.name == name && Occurs(events, name))
  {
    var more := events + [e];
    assert forall i :: 0 <= i < |events| ==> more[i] == events[i];
    assert more[|events|] == e;
    if Repeated(events, name) {
      var i, j :| 0 <= i < j < |events| && Terminal(events[i]) && Terminal(events[j])
                  && events[i].name == events[j].name == name;
      assert more[i] == events[i] && more[j] == events[j];
    }
    if Terminal(e) && e.name == name && Occurs(events, name) {
      var i :| 0 <= i < |events| && Terminal(events[i]) && events[i].name == name;
      assert more[i] == events[i] && more[|events|] == e;
    }
  }

  lemma {:induction false} TerminalNames(events: seq<Event>, name: Option<string>)
    ensures name in TerminalOf(events) <==>
              exists i :: 0 <= i < |events| && Terminal(events[i]) && events[i].name == name
    ensures name in TerminalOf(events) ==>
              exists i :: 0 <= i < |events| && Terminal(events[i]) && events[i].name == name
                  && events[i] == TerminalOf(events)[name]
  {
    if events != [] {
      var before, e := events[..|events| - 1], events[|events| - 1];
      TerminalNames(before, name);
      if Terminal(e) && e.name == name {
        assert events[|events| - 1] == e;
      } else if name in TerminalOf(before) {
        var i :| 0 <= i < |before| && Terminal(before[i]) && before[i].name == name
            && before[i] == TerminalOf(before)[name];
        assert events[i] == before[i];
      }
    }
  }

  function Items(t: Target, listed: seq<string>, selected: set<string>, terminal: map<Option<string>, Event>,
                 waivers: set<string>, skipped: string -> bool): (items: seq<Item>)
    ensures |items| == |listed|
    ensures forall i :: 0 <= i < |listed| ==>
              items[i] == Item(CaseId(t, listed[i]), Judge(t, listed[i], selected, terminal, waivers, skipped))
  {
    seq(|listed|, i requires 0 <= i < |listed| => Item(CaseId(t, listed[i]),
        Judge(t, listed[i], selected, terminal, waivers, skipped)))
  }

  /** Judging every listed case. */
  method JudgeListed(t: Target, listed: seq<string>, selected: set<string>, terminal: map<Option<string>, Event>,
                     waivers: set<string>, skipped: string -> bool)
    returns (tests: seq<Item>, errors: seq<Violation>, passed: nat)
    ensures tests == Items(t, listed, selected, terminal, waivers, skipped)
    ensures errors == [] <==> forall i :: 0 <= i < |tests| ==> Acceptable(tests[i].outcome)
    ensures passed == Count(tests, Passed)
    ensures forall v :: v in errors <==> CaseProblem(v, tests)
  {
    tests, errors, passed := [], [], 0;
    for i := 0 to |listed|
      invariant forall v :: v in errors <==> CaseProblem(v, tests)
      invariant |tests| == i && forall k :: 0 <= k < i ==>
                  tests[k] == Item(CaseId(t, listed[k]), Judge(t, listed[k], selected, terminal, waivers, skipped))
      invariant errors == [] <==> forall k :: 0 <= k < |tests| ==> Acceptable(tests[k].outcome)
      invariant passed == Count(tests, Passed)
    {
      var outcome := Judge(t, listed[i], selected, terminal, waivers, skipped);
      var item := Item(CaseId(t, listed[i]), outcome);
      if !Acceptable(outcome) {
        errors := errors + [BadCase(item.id, outcome)];
      }
      if outcome.Passed? {
        passed := passed + 1;
      }
      assert (tests + [item])[..|tests|] == tests;
      CaseProblemSnoc(tests, item);
      tests := tests + [item];
    }
  }

  lemma CaseProblemSnoc(tests: seq<Item>, item: Item)
    ensures forall v :: CaseProblem(v, tests + [item]) <==>
              CaseProblem(v, tests) || (!Acceptable(item.outcome) && v == BadCase(item.id, item.outcome))
  {
  }

  predicate CaseProblem(v: Violation, tests: seq<Item>) {
    v.BadCase? && !Acceptable(v.outcome) && Item(v.id, v.outcome) in tests
  }

  /** A violation for every name that was executed and not listed. */
  method ReportExtra(names: set<Option<string>>) returns (errors: seq<Violation>)
    ensures forall v :: v in errors <==> v.AbsentFromList? && v.name in names
  {
    errors := [];
    var extra := names;
    while extra != {}
      invariant extra <= names
      invariant forall v :: v in errors <==> v.AbsentFromList? && v.name in names - extra
    {
      var name :| name in extra;
      errors := errors + [AbsentFromList(name)];
      extra := extra - {name};
      assert names - extra == names - (extra + {name}) + {name};
    }
    assert names - extra == names;
  }

  /** The checks of the listed and the selected names. */
  method CheckSelection(t: Target, listed: seq<string>, cases: Option<seq<string>>) returns (errors: seq<Violation>)
    ensures forall v :: v in errors <==> ListProblem(v, t, listed, cases)
  {
    errors := [];
    DistinctIffSize(listed);
    if |listed| != |SetOf(listed)| {
      errors := errors + [DuplicateListed];
    }
    var selected := Selected(listed, cases);
    if !(selected <= SetOf(listed)) {
      errors := errors + [MissingSelected];
    }
    if selected == {} && (t.kind == "test" || cases.Some?) {
      errors := errors + [ZeroSelected];
    }
  }

  ghost predicate ListProblem(v: Violation, t: Target, listed: seq<string>, cases: Option<seq<string>>) {
    || (v == DuplicateListed && !Distinct(listed))
    || (v == MissingSelected && !(Selected(listed, cases) <= SetOf(listed)))
    || (v == ZeroSelected && Selected(listed, cases) == {} && (t.kind == "test" || cases.Some?))
  }

  lemma AllCollected(t: Target, listed: seq<string>, events: seq<Event>, waivers: set<string>,
                     cases: Option<seq<string>>, skipped: string -> bool, tests: seq<Item>,
                     listErrors: seq<Violation>, eventErrors: seq<Violation>, caseErrors: seq<Violation>,
                     extraErrors: seq<Violation>)
    requires tests == Items(t, listed, Selected(listed, cases), TerminalOf(events), waivers, skipped)
    requires forall v :: v in listErrors <==> ListProblem(v, t, listed, cases)
    requires forall v :: v in eventErrors <==> EventProblem(v, events, Selected(listed, cases))
    requires forall v :: v in caseErrors <==> CaseProblem(v, tests)
    requires forall v :: v in extraErrors <==>
               v.AbsentFromList? && v.name in TerminalOf(events).Keys - (set n | n in listed :: Some(n))
    ensures forall v :: v in listErrors + eventErrors + caseErrors + extraErrors <==>
              !v.NothingMandatory? && Violated(v, t, listed, events, waivers, cases, skipped)
  {
    ItemsMean(t, listed, Selected(listed, cases), events, waivers, skipped, tests);
    ExtraMeans(events, listed);
    forall v ensures v in listErrors + eventErrors + caseErrors + extraErrors <==>
                       !v.NothingMandatory? && Violated(v, t, listed, events, waivers, cases, skipped)
    {
      assert v in listErrors + eventErrors + caseErrors + extraErrors <==>
               v in listErrors || v in eventErrors || v in caseErrors || v in extraErrors;
    }
  }

  /** `observed_results`.  Every listed case is reported with the outcome its last terminal event means, a violation is
      reported exactly when it is one, there is none exactly when the promise holds, and then the passed and waived
      cases add up to the selection. */
  method ObservedResults(t: Target, listed: seq<string>, events: seq<Event>, waivers: set<string>,
                         cases: Option<seq<string>>, skipped: string -> bool)
    returns (tests: seq<Item>, errors: seq<Violation>, passed: nat)
    ensures |tests| == |listed| && forall i :: 0 <= i < |tests| ==>
              tests[i].id == CaseId(t, listed[i])
              && Means(tests[i].outcome, t, listed[i], Selected(listed, cases), events, waivers, skipped)
    ensures forall v :: v in errors <==> Violated(v, t, listed, events, waivers, cases, skipped)
    ensures errors == [] <==> Accounted(t, listed, events, waivers, cases, skipped)
    ensures passed == Count(tests, Passed)
    ensures errors == [] ==> passed == |PassedNames(Selected(listed, cases), events, skipped)|
    ensures errors == [] ==> passed + Count(tests, Limitation) == |Selected(listed, cases)|
  {
    var selected := Selected(listed, cases);
    var listErrors := CheckSelection(t, listed, cases);
    var terminal, eventErrors := ReadEvents(events, selected);
    var caseErrors;
    tests, caseErrors, passed := JudgeListed(t, listed, selected, terminal, waivers, skipped);
    var extraErrors := ReportExtra(terminal.Keys - (set n | n in listed :: Some(n)));
    errors := listErrors + eventErrors + caseErrors + extraErrors;
    AllCollected(t, listed, events, waivers, cases, skipped, tests, listErrors, eventErrors, caseErrors, extraErrors);
    if selected != {} && forall n :: n in selected ==> CaseId(t, n) in waivers {
      errors := errors + [NothingMandatory];
    }
    ItemsMean(t, listed, selected, events, waivers, skipped, tests);
    CleanIffAccounted(t, listed, events, waivers, cases, skipped, tests, errors);
    if errors == [] {
      EachSelectedCounted(t, listed, events, waivers, cases, skipped);
      PassedCounted(t, listed, events, waivers, cases, skipped, tests);
    }
  }

  // ---- Proofs ----------------------------------------------------------------------------------------

  /** What is selected: the given cases, whatever is listed, or everything listed. */
  lemma SelectedAre(listed: seq<string>, cases: Option<seq<string>>, n: string)
    ensures n in Selected(listed, cases) <==> if cases.Some? then n in cases.value else n in listed
  {
  }

  /** Within one target, different tests have different case names, so that a waiver is for one test. */
  lemma CaseIdsDiffer(t: Target, a: string, b: string)
    requires CaseId(t, a) == CaseId(t, b)
    ensures a == b
  {
    var prefix := t.package + "::" + t.kind + "/" + t.name + "::";
    assert CaseId(t, a) == prefix + a && CaseId(t, b) == prefix + b;
    assert a == (prefix + a)[|prefix|..] && b == (prefix + b)[|prefix|..];
  }

  /** The table holds the last terminal event of each name. */
  lemma {:induction false} TerminalIsLast(events: seq<Event>, name: Option<string>)
    ensures name in TerminalOf(events) <==> Occurs(events, name)
    ensures name in TerminalOf(events) ==> exists k :: Last(events, name, k) && events[k] == TerminalOf(events)[name]
  {
    TerminalNames(events, name);
    if events != [] {
      var before, e := events[..|events| - 1], events[|events| - 1];
      TerminalIsLast(before, name);
      if Terminal(e) && e.name == name {
        assert Last(events, name, |events| - 1);
      } else if name in TerminalOf(before) {
        var k :| Last(before, name, k) && before[k] == TerminalOf(before)[name];
        assert Last(events, name, k) && events[k] == before[k];
      }
    }
  }

  lemma LastIsOne(events: seq<Event>, name: Option<string>, i: int, k: int)
    requires Last(events, name, i) && Last(events, name, k)
    ensures i == k
  {
  }

  /** The verdict on a case is the outcome whose meaning holds of the events. */
  lemma JudgeIff(t: Target, test: string, selected: set<string>, events: seq<Event>, waivers: set<string>,
                 skipped: string -> bool, o: Outcome)
    ensures Judge(t, test, selected, TerminalOf(events), waivers, skipped) == o <==>
              Means(o, t, test, selected, events, waivers, skipped)
  {
    TerminalIsLast(events, Some(test));
    if test in selected && Some(test) in TerminalOf(events) {
      var k :| Last(events, Some(test), k) && events[k] == TerminalOf(events)[Some(test)];
      forall i | Last(events, Some(test), i) ensures i == k { LastIsOne(events, Some(test), i, k); }
    }
  }

  lemma {:induction false} DistinctIffSize(names: seq<string>)
    ensures |SetOf(names)| <= |names|
    ensures |SetOf(names)| == |names| <==> Distinct(names)
  {
    if names != [] {
      var before, n := names[..|names| - 1], names[|names| - 1];
      DistinctIffSize(before);
      assert SetOf(names) == SetOf(before) + {n};
      assert Distinct(names) <==> Distinct(before) && n !in before;
    }
  }

  /** Judged acceptable means: some event satisfies the case. */
  lemma JudgeIsSatisfies(t: Target, test: string, events: seq<Event>, selected: set<string>, waivers: set<string>,
          skipped: string -> bool)
    requires EventsClean(events, selected) && test in selected
    ensures Acceptable(Judge(t, test, selected, TerminalOf(events), waivers, skipped))
       <==> exists i :: 0 <= i < |events| && Satisfies(t, test, events[i], waivers, skipped)
  {
    TerminalNames(events, Some(test));
    if Some(test) in TerminalOf(events) {
      var i :| 0 <= i < |events| && Terminal(events[i]) && events[i].name == Some(test)
          && events[i] == TerminalOf(events)[Some(test)];
      forall j | 0 <= j < |events| && Terminal(events[j]) && events[j].name == Some(test) ensures j == i {
      }
      assert Acceptable(Judge(t, test, selected, TerminalOf(events), waivers, skipped)) <==>
          Satisfies(t, test, events[i], waivers, skipped);
    }
  }

  /** The conditions the program tests are together the promise. */
  lemma VerdictIsAccounted(t: Target, listed: seq<string>, events: seq<Event>, waivers: set<string>,
                           cases: Option<seq<string>>, skipped: string -> bool, tests: seq<Item>)
    requires tests == Items(t, listed, Selected(listed, cases), TerminalOf(events), waivers, skipped)
    ensures var selected := Selected(listed, cases);
            Accounted(t, listed, events, waivers, cases, skipped) <==>
              && Distinct(listed) && selected <= SetOf(listed)
              && (t.kind == "test" || cases.Some? ==> selected != {})
              && EventsClean(events, selected)
              && (forall i :: 0 <= i < |tests| ==> Acceptable(tests[i].outcome))
              && TerminalOf(events).Keys - (set n | n in listed :: Some(n)) == {}
              && !(selected != {} && forall n :: n in selected ==> CaseId(t, n) in waivers)
  {
    var selected := Selected(listed, cases);
    if EventsClean(events, selected) && selected <= SetOf(listed) {
      forall i | 0 <= i < |listed|
        ensures listed[i] in selected ==>
                  (Acceptable(tests[i].outcome) <==>
                        exists k :: 0 <= k < |events| && Satisfies(t, listed[i], events[k], waivers, skipped))
      {
        if listed[i] in selected { JudgeIsSatisfies(t, listed[i], events, selected, waivers, skipped); }
      }
      forall name | name in TerminalOf(events) ensures name.Some? && name.value in listed {
        TerminalNames(events, name);
      }
    }
  }

  /** The selected listed names, each once. */
  lemma {:induction false} CountSelected(items: seq<Item>, listed: seq<string>, selected: set<string>)
    requires |items| == |listed| && Distinct(listed)
    requires forall i :: 0 <= i < |items| ==>
        Acceptable(items[i].outcome) && (items[i].outcome.NotSelected? <==> listed[i] !in selected)
    ensures Count(items, Passed) + Count(items, Limitation) == |SetOf(listed) * selected|
  {
    if items != [] {
      var before, n := listed[..|listed| - 1], listed[|listed| - 1];
      CountSelected(items[..|items| - 1], before, selected);
      assert n !in before;
      if n in selected {
        assert SetOf(listed) * selected == SetOf(before) * selected + {n};
      } else {
        assert SetOf(listed) * selected == SetOf(before) * selected;
      }
    } else {
      assert SetOf(listed) * selected == {};
    }
  }

  lemma EachSelectedCounted(t: Target, listed: seq<string>, events: seq<Event>, waivers: set<string>,
                            cases: Option<seq<string>>, skipped: string -> bool)
    requires Accounted(t, listed, events, waivers, cases, skipped)
    ensures var tests := Items(t, listed, Selected(listed, cases), TerminalOf(events), waivers, skipped);
            Count(tests, Passed) + Count(tests, Limitation) == |Selected(listed, cases)|
  {
    var selected := Selected(listed, cases);
    var tests := Items(t, listed, selected, TerminalOf(events), waivers, skipped);
    forall i | 0 <= i < |tests|
      ensures Acceptable(tests[i].outcome) && (tests[i].outcome.NotSelected? <==> listed[i] !in selected)
    {
      if listed[i] in selected { JudgeIsSatisfies(t, listed[i], events, selected, waivers, skipped); }
    }
    CountSelected(tests, listed, selected);
    assert SetOf(listed) * selected == selected;
  }

  /** The reported items say what the events mean. */
  lemma ItemsMean(t: Target, listed: seq<string>, selected: set<string>, events: seq<Event>, waivers: set<string>,
                  skipped: string -> bool, tests: seq<Item>)
    requires tests == Items(t, listed, selected, TerminalOf(events), waivers, skipped)
    ensures forall i :: 0 <= i < |tests| ==>
              tests[i].id == CaseId(t, listed[i])
              && Means(tests[i].outcome, t, listed[i], selected, events, waivers, skipped)
    ensures forall v :: CaseProblem(v, tests) <==>
              v.BadCase? && !Acceptable(v.outcome)
              && exists i :: 0 <= i < |listed| && v.id == CaseId(t, listed[i])
                             && Means(v.outcome, t, listed[i], selected, events, waivers, skipped)
  {
    forall i, o | 0 <= i < |tests|
      ensures tests[i].outcome == o <==> Means(o, t, listed[i], selected, events, waivers, skipped)
    {
      JudgeIff(t, listed[i], selected, events, waivers, skipped, o);
    }
    forall v: Violation | v.BadCase?
      ensures Item(v.id, v.outcome) in tests <==>
                exists i :: 0 <= i < |listed| && v.id == CaseId(t, listed[i])
                            && Means(v.outcome, t, listed[i], selected, events, waivers, skipped)
    {
      if i :| 0 <= i < |listed| && v.id == CaseId(t, listed[i])
              && Means(v.outcome, t, listed[i], selected, events, waivers, skipped)
      {
        assert tests[i] == Item(v.id, v.outcome);
      }
    }
  }

  lemma ExtraMeans(events: seq<Event>, listed: seq<string>)
    ensures forall name :: name in TerminalOf(events).Keys - (set n | n in listed :: Some(n)) <==>
              Occurs(events, name) && !(name.Some? && name.value in listed)
  {
    forall name ensures name in TerminalOf(events) <==> Occurs(events, name) { TerminalIsLast(events, name); }
  }

  /** Fail closed: a failed case, an ignored one without a waiver, one that shows a skip marker or one that was never
      reported keeps the promise from holding, whatever else is reported. */
  lemma FailsClosed(t: Target, listed: seq<string>, events: seq<Event>, waivers: set<string>,
                    cases: Option<seq<string>>, skipped: string -> bool, k: int)
    requires 0 <= k < |events| && events[k].kind == Some("test")
    requires || events[k].event == Some("failed")
             || (events[k].event == Some("ok") && skipped(events[k].stdout))
             || (events[k].event == Some("ignored")
                 && (events[k].name.None? || CaseId(t, events[k].name.value) !in waivers))
    ensures !Accounted(t, listed, events, waivers, cases, skipped)
  {
    assert Terminal(events[k]);
  }

  lemma NeverReportedFails(t: Target, listed: seq<string>, events: seq<Event>, waivers: set<string>,
                           cases: Option<seq<string>>, skipped: string -> bool, n: string)
    requires n in Selected(listed, cases)
    requires forall k :: 0 <= k < |events| ==>
               !(events[k].kind == Some("test") && events[k].event in {Some("ok"), Some("failed"), Some("ignored")}
                 && events[k].name == Some(n))
    ensures !Accounted(t, listed, events, waivers, cases, skipped)
  {
  }

  /** No violation is the promise. */
  lemma CleanIffAccounted(t: Target, listed: seq<string>, events: seq<Event>, waivers: set<string>,
                          cases: Option<seq<string>>, skipped: string -> bool, tests: seq<Item>, errors: seq<Violation>)
    requires tests == Items(t, listed, Selected(listed, cases), TerminalOf(events), waivers, skipped)
    requires forall v :: v in errors <==> Violated(v, t, listed, events, waivers, cases, skipped)
    ensures errors == [] <==> Accounted(t, listed, events, waivers, cases, skipped)
  {
    assert errors != [] ==> errors[0] in errors;
    if Accounted(t, listed, events, waivers, cases, skipped) {
      forall v ensures !Violated(v, t, listed, events, waivers, cases, skipped) {
        NothingViolated(v, t, listed, events, waivers, cases, skipped, tests);
      }
    } else {
      var v := SomethingViolated(t, listed, events, waivers, cases, skipped, tests);
      assert v in errors;
    }
  }

  lemma NothingViolated(v: Violation, t: Target, listed: seq<string>, events: seq<Event>, waivers: set<string>,
                        cases: Option<seq<string>>, skipped: string -> bool, tests: seq<Item>)
    requires tests == Items(t, listed, Selected(listed, cases), TerminalOf(events), waivers, skipped)
    requires Accounted(t, listed, events, waivers, cases, skipped)
    ensures !Violated(v, t, listed, events, waivers, cases, skipped)
  {
    VerdictIsAccounted(t, listed, events, waivers, cases, skipped, tests);
    ItemsMean(t, listed, Selected(listed, cases), events, waivers, skipped, tests);
    assert v.BadCase? && Violated(v, t, listed, events, waivers, cases, skipped) ==> CaseProblem(v, tests);
  }

  lemma SomethingViolated(t: Target, listed: seq<string>, events: seq<Event>, waivers: set<string>,
                          cases: Option<seq<string>>, skipped: string -> bool, tests: seq<Item>)
    returns (v: Violation)
    requires tests == Items(t, listed, Selected(listed, cases), TerminalOf(events), waivers, skipped)
    requires !Accounted(t, listed, events, waivers, cases, skipped)
    ensures Violated(v, t, listed, events, waivers, cases, skipped)
  {
    var selected := Selected(listed, cases);
    VerdictIsAccounted(t, listed, events, waivers, cases, skipped, tests);
    ExtraMeans(events, listed);
    if !Distinct(listed) {
      v := DuplicateListed;
    } else if !(selected <= SetOf(listed)) {
      v := MissingSelected;
    } else if selected == {} && (t.kind == "test" || cases.Some?) {
      v := ZeroSelected;
    } else if !EventsClean(events, selected) {
      v := EventViolated(events, selected);
    } else if i :| 0 <= i < |tests| && !Acceptable(tests[i].outcome) {
      v := BadCase(tests[i].id, tests[i].outcome);
      ItemsMean(t, listed, selected, events, waivers, skipped, tests);
      assert CaseProblem(v, tests);
    } else if TerminalOf(events).Keys - (set n | n in listed :: Some(n)) != {} {
      var name :| name in TerminalOf(events).Keys - (set n | n in listed :: Some(n));
      v := AbsentFromList(name);
    } else {
      v := NothingMandatory;
    }
  }

  lemma EventViolated(events: seq<Event>, selected: set<string>) returns (v: Violation)
    requires !EventsClean(events, selected)
    ensures EventProblem(v, events, selected)
  {
    if i :| 0 <= i < |events| && Terminal(events[i]) && !(events[i].name.Some? && events[i].name.value in selected) {
      v := UnselectedExecuted(events[i].name);
    } else {
      var i, j :| 0 <= i < j < |events| && Terminal(events[i]) && Terminal(events[j])
                  && events[i].name == events[j].name;
      v := DuplicateTerminal(events[i].name);
    }
  }

  /** When nothing is wrong, the cases reported as passed are the selected names with such a success. */
  lemma PassedCounted(t: Target, listed: seq<string>, events: seq<Event>, waivers: set<string>,
                      cases: Option<seq<string>>, skipped: string -> bool, tests: seq<Item>)
    requires Accounted(t, listed, events, waivers, cases, skipped)
    requires tests == Items(t, listed, Selected(listed, cases), TerminalOf(events), waivers, skipped)
    ensures Count(tests, Passed) == |PassedNames(Selected(listed, cases), events, skipped)|
  {
    var selected := Selected(listed, cases);
    var names := PassedNames(selected, events, skipped);
    forall i | 0 <= i < |tests| ensures tests[i].outcome == Passed <==> listed[i] in names {
      JudgeIff(t, listed[i], selected, events, waivers, skipped, Passed);
      PassedMeans(t, listed[i], selected, events, waivers, skipped);
    }
    CountNamed(tests, listed, names);
    assert SetOf(listed) * names == names;
  }

  lemma PassedMeans(t: Target, test: string, selected: set<string>, events: seq<Event>, waivers: set<string>,
                    skipped: string -> bool)
    requires EventsClean(events, selected)
    ensures Means(Passed, t, test, selected, events, waivers, skipped) <==>
              test in PassedNames(selected, events, skipped)
  {
    if test in PassedNames(selected, events, skipped) {
      var k :| 0 <= k < |events| && events[k].kind == Some("test") && events[k].event == Some("ok")
               && events[k].name == Some(test) && !skipped(events[k].stdout);
      assert Terminal(events[k]);
      assert Last(events, Some(test), k);
    }
  }

  lemma {:induction false} CountNamed(items: seq<Item>, listed: seq<string>, names: set<string>)
    requires |items| == |listed| && Distinct(listed)
    requires forall i :: 0 <= i < |items| ==> (items[i].outcome == Passed <==> listed[i] in names)
    ensures Count(items, Passed) == |SetOf(listed) * names|
  {
    if items != [] {
      var before, n := listed[..|listed| - 1], listed[|listed| - 1];
      CountNamed(items[..|items| - 1], before, names);
      assert n !in before;
      if n in names {
        assert SetOf(listed) * names == SetOf(before) * names + {n};
      } else {
        assert SetOf(listed) * names == SetOf(before) * names;
      }
    } else {
      assert SetOf(listed) * names == {};
    }
  }
}
