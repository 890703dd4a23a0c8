/** Assignment of every Cargo test target to exactly one CI job that can run it. */
module TargetAssignment {
  import opened Prelude
  import opened TestAccounting

  const SIM_PACKAGE := "rockstream-sim"

  datatype Requirement = Requirement(features: set<string>, services: set<string>)

  /** One job of the policy.  A thread setting that is not an integer is `None`. */
  datatype JobSpec = JobSpec(
    features: set<string>,
    packageFeatures: map<string, set<string>>,
    services: set<string>,
    supplemental: set<string>,
    cases: set<string>,
    includeIgnored: set<string>,
    testThreads: map<string, Option<int>>,
    conformance: set<string>)

  datatype Policy = Policy(
    jobs: map<string, JobSpec>,
    simGroups: map<string, seq<string>>,
    simLibJob: string,
    packageJobs: map<string, string>,
    targetJobs: map<string, string>,
    requirements: map<string, Requirement>)

  datatype Problem =
    | UndefinedSimJob(job: string) | SimAssignedTwice(name: string) | UndefinedSimLibJob
    | UnassignedPackage(package: string) | StalePackage(package: string) | UndefinedPackageJob(package: string)
    | UnassignedTarget(key: string) | UndefinedOwner(key: string) | MissingRequirement(key: string)
    | StaleSim(name: string) | InvalidOwner(key: string)
    | BadSupplemental(job: string, name: string) | BadCaseFilter(job: string, name: string)
    | BadIgnored(job: string, key: string) | BadThreads(job: string, key: string)
    | BadConformance(job: string, key: string)

  function TargetId(package: string, kind: string, name: string): string { package + "/" + kind + ":" + name }

  function SimKey(name: string): string { TargetId(SIM_PACKAGE, "test", name) }

  /** The text before the first slash. */
  function PackageOf(key: string): string {
    if key == [] || key[0] == '/' then [] else [key[0]] + PackageOf(key[1..])
  }

  /** A requirement selector names one target, or with a trailing ":*" every target of a package and kind. */
  predicate Selects(selector: string, key: string) {
    selector == key || (|selector| >= 2 && selector[|selector| - 2..] == ":*" && selector[..|selector| - 1] <= key)
  }

  /** The job provides every feature and service that some matching selector requires. */
  ghost predicate Meets(policy: Policy, key: string, job: string)
    requires job in policy.jobs
  {
    var spec := policy.jobs[job];
    forall selector :: selector in policy.requirements && Selects(selector, key) ==>
      policy.requirements[selector].features <= FeaturesFor(spec, key)
          && policy.requirements[selector].services <= spec.services
  }

  function FeaturesFor(spec: JobSpec, key: string): set<string> {
    if PackageOf(key) in spec.packageFeatures then spec.packageFeatures[PackageOf(key)] else spec.features
  }

  /** What the policy says about the owner of a target: an explicit entry, else its simulation group, else the
      simulation library job, else its package's job. */
  predicate OwnedBy(policy: Policy, key: string, t: Target, job: string) {
    if key in policy.targetJobs then job == policy.targetJobs[key]
    else if t.package == SIM_PACKAGE then
      if t.kind == "test" then job in policy.simGroups && t.name in policy.simGroups[job] else job == policy.simLibJob
    else t.package in policy.packageJobs && job == policy.packageJobs[t.package]
  }

  /** No simulation target is named twice, within one group or in two groups. */
  ghost predicate GroupsDisjoint(groups: map<string, seq<string>>, jobs: set<string>) {
    && (forall job :: job in jobs && job in groups ==> Distinct(groups[job]))
    && (forall a, b, n :: a in jobs && b in jobs && a in groups && b in groups && a != b && n in groups[a] ==>
        n !in groups[b])
  }

  ghost predicate Declared(groups: map<string, seq<string>>, jobs: set<string>, name: string) {
    exists job :: job in jobs && job in groups && name in groups[job]
  }

  ghost predicate LiveSim(targets: map<string, Target>, name: string) {
    exists key :: key in targets && targets[key].package == SIM_PACKAGE && targets[key].kind == "test"
        && targets[key].name == name
  }

  predicate Owns(owner: map<string, string>, key: string, job: string) { key in owner && owner[key] == job }

  predicate ThreadsOk(threads: Option<int>) { threads.Some? && 1 <= threads.value <= 4 }

  ghost predicate JobOk(targets: map<string, Target>, owner: map<string, string>, job: string, spec: JobSpec) {
    && (forall n :: n in spec.supplemental ==> SimKey(n) in targets && !Owns(owner, SimKey(n), job))
    && (forall n :: n in spec.cases ==> n in spec.supplemental)
    && (forall key :: key in spec.includeIgnored ==> Owns(owner, key, job))
    && (forall key :: key in spec.testThreads ==> Owns(owner, key, job) && ThreadsOk(spec.testThreads[key]))
    && (forall key :: key in spec.conformance ==> Owns(owner, key, job))
  }

  /** `owner` gives every target one defined owner that the policy names and that meets the target's requirements. */
  ghost predicate GoodOwners(targets: map<string, Target>, policy: Policy, owner: map<string, string>) {
    && owner.Keys == targets.Keys
    && forall key :: key in targets ==>
         OwnedBy(policy, key, targets[key], owner[key]) && owner[key] in policy.jobs && Meets(policy, key, owner[key])
  }

  ghost predicate SimsClosed(policy: Policy) {
    policy.simGroups.Keys <= policy.jobs.Keys && GroupsDisjoint(policy.simGroups, policy.simGroups.Keys)
  }

  /** The policy has no hole and nothing stale in it, apart from the simulation groups and the owners. */
  ghost predicate PolicyClosed(targets: map<string, Target>, packages: set<string>, policy: Policy) {
    && policy.simLibJob in policy.jobs
    && packages == policy.packageJobs.Keys + {SIM_PACKAGE}
    && (forall p :: p in policy.packageJobs ==> policy.packageJobs[p] in policy.jobs)
    && (forall n :: Declared(policy.simGroups, policy.simGroups.Keys, n) ==> LiveSim(targets, n))
    && (forall key :: key in policy.targetJobs ==> key in targets && policy.targetJobs[key] in policy.jobs)
  }

  /** What a successful assignment promises: a closed policy, and owners under which every job's own settings make
      sense. */
  ghost predicate Assigned(targets: map<string, Target>, packages: set<string>, policy: Policy,
                           owner: map<string, string>)
  {
    && SimsClosed(policy)
    && PolicyClosed(targets, packages, policy)
    && GoodOwners(targets, policy, owner)
    && (forall key :: key in owner ==> owner[key] != "")
    && (forall job :: job in policy.jobs ==> JobOk(targets, owner, job, policy.jobs[job]))
  }

  // ---- The program ---------------------------------------------------------------------------------

  /** One reporting loop: a problem for every offending item. */
  method Report<T(==)>(items: set<T>, bad: T -> bool, problem: T -> Problem) returns (errors: seq<Problem>)
    ensures forall p :: p in errors <==> exists x :: x in items && bad(x) && p == problem(x)
  {
    errors := [];
    var rest := items;
    while rest != {}
      invariant rest <= items
      invariant forall p :: p in errors <==> exists x :: x in items - rest && bad(x) && p == problem(x)
    {
      var x :| x in rest;
      if bad(x) { errors := errors + [problem(x)]; }
      rest := rest - {x};
      assert items - rest == (items - (rest + {x})) + {x};
    }
    assert items - rest == items;
  }

  /** A problem for every item. */
  method ReportEach<T(==)>(items: set<T>, problem: T -> Problem) returns (errors: seq<Problem>)
    ensures forall p :: p in errors <==> exists x :: x in items && p == problem(x)
  {
    errors := Report(items, (x: T) => true, problem);
  }

  /** Collecting the simulation groups. */
  method DeclareSims(policy: Policy) returns (declared: map<string, string>, errors: seq<Problem>)
    ensures errors == [] <==> SimsClosed(policy)
    ensures forall p :: p in errors <==> SimProblem(p, policy, policy.simGroups.Keys)
    ensures forall n :: n in declared <==> Declared(policy.simGroups, policy.simGroups.Keys, n)
    ensures forall n :: n in declared ==> declared[n] in policy.simGroups && n in policy.simGroups[declared[n]]
  {
    var groups := policy.simGroups;
    declared, errors := map[], [];
    var rest, done := groups.Keys, {};
    while rest != {}
      invariant done + rest == groups.Keys && done !! rest
      invariant forall p :: p in errors <==> SimProblem(p, policy, done)
      invariant forall n :: n in declared <==> Declared(groups, done, n)
      invariant forall n :: n in declared ==> declared[n] in done && n in groups[declared[n]]
      decreases |rest|
    {
      var job :| job in rest;
      if job !in policy.jobs { errors := errors + [UndefinedSimJob(job)]; }
      var declared', errors' := DeclareGroup(groups, done, job, declared);
      declared, errors := declared', errors + errors';
      SimProblemExtend(policy, done, job);
      done, rest := done + {job}, rest - {job};
    }
    NoSimProblemIff(policy);
    assert errors != [] ==> errors[0] in errors;
  }

  /** Two places of the list have this name. */
  ghost predicate Doubled(names: seq<string>, name: string) {
    exists i, j :: 0 <= i < j < |names| && names[i] == names[j] == name
  }

  /** A name of the list that the list has before, or that an earlier group declares. */
  ghost predicate Again(groups: map<string, seq<string>>, done: set<string>, names: seq<string>, name: string) {
    name in names && (Declared(groups, done, name) || Doubled(names, name))
  }

  /** Two places of these groups have this name. */
  ghost predicate Twice(groups: map<string, seq<string>>, jobs: set<string>, name: string) {
    || (exists job :: job in jobs && job in groups && Doubled(groups[job], name))
    || (exists a, b :: a in jobs && b in jobs && a != b && a in groups && b in groups
                       && name in groups[a] && name in groups[b])
  }

  /** What a problem with the first of the simulation groups says. */
  ghost predicate SimProblem(p: Problem, policy: Policy, jobs: set<string>) {
    || (p.UndefinedSimJob? && p.job in jobs && p.job !in policy.jobs)
    || (p.SimAssignedTwice? && Twice(policy.simGroups, jobs, p.name))
  }

  lemma SimProblemExtend(policy: Policy, done: set<string>, job: string)
    requires job in policy.simGroups && job !in done
    ensures forall p :: SimProblem(p, policy, done + {job}) <==>
              || SimProblem(p, policy, done)
              || (p == UndefinedSimJob(job) && job !in policy.jobs)
              || (p.SimAssignedTwice? && Again(policy.simGroups, done, policy.simGroups[job], p.name))
  {
    TwiceExtend(policy.simGroups, done, job);
  }

  lemma NoSimProblemIff(policy: Policy)
    ensures (forall p :: !SimProblem(p, policy, policy.simGroups.Keys)) <==> SimsClosed(policy)
  {
    var groups := policy.simGroups;
    if forall p :: !SimProblem(p, policy, groups.Keys) {
      forall job | job in groups ensures job in policy.jobs && Distinct(groups[job]) {
        assert !SimProblem(UndefinedSimJob(job), policy, groups.Keys);
        forall i, j | 0 <= i < j < |groups[job]| ensures groups[job][i] != groups[job][j] {
          assert !SimProblem(SimAssignedTwice(groups[job][i]), policy, groups.Keys);
        }
      }
      forall a, b, n | a in groups && b in groups && a != b && n in groups[a] ensures n !in groups[b] {
        assert !SimProblem(SimAssignedTwice(n), policy, groups.Keys);
      }
    }
  }

  lemma AgainSnoc(groups: map<string, seq<string>>, done: set<string>, names: seq<string>, name: string)
    ensures forall n :: Again(groups, done, names + [name], n) <==>
              Again(groups, done, names, n) || (n == name && (Declared(groups, done, n) || n in names))
  {
    var more := names + [name];
    forall n ensures Doubled(more, n) <==> Doubled(names, n) || (n == name && n in names) {
      if Doubled(names, n) {
        var i, j :| 0 <= i < j < |names| && names[i] == names[j] == n;
        assert more[i] == more[j] == n;
      }
      if n == name && n in names {
        var i :| 0 <= i < |names| && names[i] == n;
        assert more[i] == more[|names|] == n;
      }
    }
  }

  lemma TwiceExtend(groups: map<string, seq<string>>, done: set<string>, job: string)
    requires job in groups && job !in done
    ensures forall n :: Twice(groups, done + {job}, n) <==>
              Twice(groups, done, n) || Again(groups, done, groups[job], n)
  {
    var more := done + {job};
    assert job in more;
    forall n ensures Twice(groups, more, n) <==> Twice(groups, done, n) || Again(groups, done, groups[job], n) {
      if Twice(groups, done, n) {
        if j :| j in done && j in groups && Doubled(groups[j], n) {
          assert j in more;
        } else {
          var a, b :| a in done && b in done && a != b && a in groups && b in groups && n in groups[a]
                      && n in groups[b];
          assert a in more && b in more;
        }
      }
      if n in groups[job] && Declared(groups, done, n) {
        var a :| a in done && a in groups && n in groups[a];
        assert a in more && a != job;
      }
    }
  }

  method DeclareGroup(groups: map<string, seq<string>>, ghost done: set<string>, job: string,
                      before: map<string, string>)
    returns (declared: map<string, string>, errors: seq<Problem>)
    requires job in groups && job !in done && done <= groups.Keys
    requires forall n :: n in before <==> Declared(groups, done, n)
    requires forall n :: n in before ==> before[n] in done && n in groups[before[n]]
    ensures forall p :: p in errors <==> p.SimAssignedTwice? && Again(groups, done, groups[job], p.name)
    ensures forall n :: n in declared <==> Declared(groups, done + {job}, n)
    ensures forall n :: n in declared ==> declared[n] in done + {job} && n in groups[declared[n]]
  {
    var names := groups[job];
    declared, errors := before, [];
    for i := 0 to |names|
      invariant forall p :: p in errors <==> p.SimAssignedTwice? && Again(groups, done, names[..i], p.name)
      invariant forall n :: n in declared <==> Declared(groups, done, n) || n in names[..i]
      invariant forall n :: n in declared ==> declared[n] in done + {job} && n in groups[declared[n]]
    {
      var name := names[i];
      if name in declared { errors := errors + [SimAssignedTwice(name)]; }
      declared := declared[name := job];
      assert names[..i + 1] == names[..i] + [name];
      AgainSnoc(groups, done, names[..i], name);
    }
    assert names[..|names|] == names;
    forall n ensures n in declared <==> Declared(groups, done + {job}, n) {
      if Declared(groups, done, n) {
        var j :| j in done && j in groups && n in groups[j];
        assert j in done + {job};
      }
      if n in names { assert job in done + {job} && n in groups[job]; }
    }
  }

  /** `check_requirements`: everything the matching selectors ask for is offered. */
  method CheckRequirements(key: string, job: string, policy: Policy) returns (errors: seq<Problem>)
    requires job in policy.jobs
    ensures errors == if Meets(policy, key, job) then [] else [MissingRequirement(key)]
  {
    var spec := policy.jobs[job];
    var features: set<string>, services: set<string> := {}, {};
    var rest := policy.requirements.Keys;
    while rest != {}
      invariant rest <= policy.requirements.Keys
      invariant features <= FeaturesFor(spec, key) && services <= spec.services <==>
                  forall s :: s in policy.requirements.Keys - rest && Selects(s, key) ==>
                    policy.requirements[s].features <= FeaturesFor(spec, key)
                        && policy.requirements[s].services <= spec.services
    {
      var selector :| selector in rest;
      var values := policy.requirements[selector];
      assert policy.requirements.Keys - (rest - {selector}) == (policy.requirements.Keys - rest) + {selector};
      if Selects(selector, key) {
        features, services := features + values.features, services + values.services;
      }
      rest := rest - {selector};
    }
    assert policy.requirements.Keys - rest == policy.requirements.Keys;
    errors := [];
    if !(features <= FeaturesFor(spec, key) && services <= spec.services) { errors := [MissingRequirement(key)]; }
  }

  /** The job the program computes for a target; "" when there is none. */
  function ProposedJob(policy: Policy, declared: map<string, string>, key: string, t: Target): string {
    if key in policy.targetJobs then policy.targetJobs[key]
    else if t.package == SIM_PACKAGE then
      if t.kind == "test" then (if t.name in declared then declared[t.name] else "") else policy.simLibJob
    else if t.package in policy.packageJobs then policy.packageJobs[t.package]
    else ""
  }

  /** What a problem with the owner of a target says. */
  ghost predicate OwnerProblem(p: Problem, targets: map<string, Target>, policy: Policy, declared: map<string, string>,
                               key: string)
    requires key in targets
  {
    var job := ProposedJob(policy, declared, key, targets[key]);
    if job == "" then p == UnassignedTarget(key)
    else if job !in policy.jobs then p == UndefinedOwner(key)
    else p == MissingRequirement(key) && !Meets(policy, key, job)
  }

  /** The owner of every target, and a problem for each that has none or an unsuitable one. */
  method AssignOwners(targets: map<string, Target>, policy: Policy, declared: map<string, string>)
    returns (owner: map<string, string>, errors: seq<Problem>)
    ensures errors == [] <==> forall key :: key in targets ==>
              var job := ProposedJob(policy, declared, key, targets[key]);
              job != "" && job in policy.jobs && Meets(policy, key, job)
    ensures owner.Keys <= targets.Keys
    ensures forall key :: key in owner ==> owner[key] == ProposedJob(policy, declared, key, targets[key])
    ensures errors == [] ==> owner.Keys == targets.Keys
    ensures forall p :: p in errors <==> exists key :: key in targets && OwnerProblem(p, targets, policy, declared, key)
  {
    owner, errors := map[], [];
    var rest := targets.Keys;
    while rest != {}
      invariant rest <= targets.Keys
      invariant errors == [] <==> forall key :: key in targets.Keys - rest ==>
                  var job := ProposedJob(policy, declared, key, targets[key]);
                  job != "" && job in policy.jobs && Meets(policy, key, job)
      invariant owner.Keys <= targets.Keys - rest
      invariant forall key :: key in owner ==> owner[key] == ProposedJob(policy, declared, key, targets[key])
      invariant errors == [] ==> owner.Keys == targets.Keys - rest
      invariant forall p :: p in errors <==>
                  exists key :: key in targets.Keys - rest && OwnerProblem(p, targets, policy, declared, key)
    {
      var key :| key in rest;
      var job := ProposedJob(policy, declared, key, targets[key]);
      assert targets.Keys - (rest - {key}) == (targets.Keys - rest) + {key};
      if job == "" {
        errors := errors + [UnassignedTarget(key)];
      } else {
        owner := owner[key := job];
        if job !in policy.jobs {
          errors := errors + [UndefinedOwner(key)];
        } else {
          var missing := CheckRequirements(key, job, policy);
          errors := errors + missing;
        }
      }
      rest := rest - {key};
    }
    assert targets.Keys - rest == targets.Keys;
  }

  /** What a problem with a job's settings says. */
  predicate JobProblem(p: Problem, targets: map<string, Target>, owner: map<string, string>, job: string,
                       spec: JobSpec)
  {
    match p
    case BadSupplemental(j, n) =>
      j == job && n in spec.supplemental && (SimKey(n) !in targets || Owns(owner, SimKey(n), job))
    case BadCaseFilter(j, n) => j == job && n in spec.cases && n !in spec.supplemental
    case BadIgnored(j, key) => j == job && key in spec.includeIgnored && !Owns(owner, key, job)
    case BadThreads(j, key) =>
      j == job && key in spec.testThreads && (!Owns(owner, key, job) || !ThreadsOk(spec.testThreads[key]))
    case BadConformance(j, key) => j == job && key in spec.conformance && !Owns(owner, key, job)
    case _ => false
  }

  method CheckSupplemental(targets: map<string, Target>, owner: map<string, string>, job: string, spec: JobSpec)
    returns (errors: seq<Problem>)
    ensures forall p :: p in errors <==> p.BadSupplemental? && JobProblem(p, targets, owner, job, spec)
  {
    errors := Report(spec.supplemental, (n: string) => SimKey(n) !in targets || Owns(owner, SimKey(n), job),
                     (n: string) => BadSupplemental(job, n));
  }

  method CheckCases(targets: map<string, Target>, owner: map<string, string>, job: string, spec: JobSpec)
    returns (errors: seq<Problem>)
    ensures forall p :: p in errors <==> p.BadCaseFilter? && JobProblem(p, targets, owner, job, spec)
  {
    errors := Report(spec.cases, (n: string) => n !in spec.supplemental, (n: string) => BadCaseFilter(job, n));
  }

  method CheckIgnored(targets: map<string, Target>, owner: map<string, string>, job: string, spec: JobSpec)
    returns (errors: seq<Problem>)
    ensures forall p :: p in errors <==> p.BadIgnored? && JobProblem(p, targets, owner, job, spec)
  {
    errors := Report(spec.includeIgnored, (key: string) => !Owns(owner, key, job),
                     (key: string) => BadIgnored(job, key));
  }

  method CheckThreads(targets: map<string, Target>, owner: map<string, string>, job: string, spec: JobSpec)
    returns (errors: seq<Problem>)
    ensures forall p :: p in errors <==> p.BadThreads? && JobProblem(p, targets, owner, job, spec)
  {
    errors := Report(spec.testThreads.Keys,
                     (key: string) => !Owns(owner, key, job)
                         || (key in spec.testThreads && !ThreadsOk(spec.testThreads[key])),
                     (key: string) => BadThreads(job, key));
  }

  method CheckConformance(targets: map<string, Target>, owner: map<string, string>, job: string, spec: JobSpec)
    returns (errors: seq<Problem>)
    ensures forall p :: p in errors <==> p.BadConformance? && JobProblem(p, targets, owner, job, spec)
  {
    errors := Report(spec.conformance, (key: string) => !Owns(owner, key, job),
                     (key: string) => BadConformance(job, key));
  }

  method CheckJob(targets: map<string, Target>, owner: map<string, string>, job: string, spec: JobSpec)
    returns (errors: seq<Problem>)
    ensures errors == [] <==> JobOk(targets, owner, job, spec)
    ensures forall p :: p in errors <==> JobProblem(p, targets, owner, job, spec)
  {
    var supplemental := CheckSupplemental(targets, owner, job, spec);
    var cases := CheckCases(targets, owner, job, spec);
    var ignored := CheckIgnored(targets, owner, job, spec);
    var threads := CheckThreads(targets, owner, job, spec);
    var conformance := CheckConformance(targets, owner, job, spec);
    errors := supplemental + cases + ignored + threads + conformance;
    assert forall p :: p in errors <==>
               p in supplemental || p in cases || p in ignored || p in threads || p in conformance;
    NoJobProblemIff(targets, owner, job, spec);
    assert errors != [] ==> errors[0] in errors;
  }

  lemma NoJobProblemIff(targets: map<string, Target>, owner: map<string, string>, job: string, spec: JobSpec)
    ensures (forall p :: !JobProblem(p, targets, owner, job, spec)) <==> JobOk(targets, owner, job, spec)
  {
    if forall p :: !JobProblem(p, targets, owner, job, spec) {
      forall n | n in spec.supplemental ensures SimKey(n) in targets && !Owns(owner, SimKey(n), job) {
        assert !JobProblem(BadSupplemental(job, n), targets, owner, job, spec);
      }
      forall n | n in spec.cases ensures n in spec.supplemental {
        assert !JobProblem(BadCaseFilter(job, n), targets, owner, job, spec);
      }
      forall key | key in spec.includeIgnored ensures Owns(owner, key, job) {
        assert !JobProblem(BadIgnored(job, key), targets, owner, job, spec);
      }
      forall key | key in spec.testThreads ensures Owns(owner, key, job) && ThreadsOk(spec.testThreads[key]) {
        assert !JobProblem(BadThreads(job, key), targets, owner, job, spec);
      }
      forall key | key in spec.conformance ensures Owns(owner, key, job) {
        assert !JobProblem(BadConformance(job, key), targets, owner, job, spec);
      }
    }
  }

  method CheckJobs(targets: map<string, Target>, owner: map<string, string>, policy: Policy)
    returns (errors: seq<Problem>)
    ensures errors == [] <==> forall job :: job in policy.jobs ==> JobOk(targets, owner, job, policy.jobs[job])
    ensures forall p :: p in errors <==>
              exists job :: job in policy.jobs && JobProblem(p, targets, owner, job, policy.jobs[job])
  {
    errors := [];
    var rest := policy.jobs.Keys;
    while rest != {}
      invariant rest <= policy.jobs.Keys
      invariant forall p :: p in errors <==>
                  exists job :: job in policy.jobs.Keys - rest && JobProblem(p, targets, owner, job, policy.jobs[job])
      invariant errors == [] <==> forall job :: job in policy.jobs.Keys - rest ==>
          JobOk(targets, owner, job, policy.jobs[job])
    {
      var job :| job in rest;
      var more := CheckJob(targets, owner, job, policy.jobs[job]);
      errors := errors + more;
      assert policy.jobs.Keys - (rest - {job}) == (policy.jobs.Keys - rest) + {job};
      rest := rest - {job};
    }
    assert policy.jobs.Keys - rest == policy.jobs.Keys;
  }

  /** What a problem with the policy as a whole says. */
  ghost predicate PolicyProblem(p: Problem, targets: map<string, Target>, packages: set<string>, policy: Policy) {
    match p
    case UndefinedSimLibJob => policy.simLibJob !in policy.jobs
    case UnassignedPackage(package) =>
      package in packages && package !in policy.packageJobs && package != SIM_PACKAGE
    case StalePackage(package) => package !in packages && (package in policy.packageJobs || package == SIM_PACKAGE)
    case UndefinedPackageJob(package) =>
      package in policy.packageJobs && policy.packageJobs[package] !in policy.jobs
    case StaleSim(name) => Declared(policy.simGroups, policy.simGroups.Keys, name) && !LiveSim(targets, name)
    case InvalidOwner(key) =>
      key in policy.targetJobs && (key !in targets || policy.targetJobs[key] !in policy.jobs)
    case _ => false
  }

  method CheckPackages(targets: map<string, Target>, packages: set<string>, policy: Policy)
    returns (errors: seq<Problem>)
    ensures forall p :: p in errors <==>
              (p.UnassignedPackage? || p.StalePackage?) && PolicyProblem(p, targets, packages, policy)
  {
    var configured := policy.packageJobs.Keys + {SIM_PACKAGE};
    var unassigned := ReportEach(packages - configured, (p: string) => UnassignedPackage(p));
    var stale := ReportEach(configured - packages, (p: string) => StalePackage(p));
    errors := unassigned + stale;
    forall p ensures p in errors <==>
                       (p.UnassignedPackage? || p.StalePackage?) && PolicyProblem(p, targets, packages, policy)
    {
      if p.UnassignedPackage? {
        assert p.package in packages - configured <==> PolicyProblem(p, targets, packages, policy);
      } else if p.StalePackage? {
        assert p.package in configured - packages <==> PolicyProblem(p, targets, packages, policy);
      }
    }
  }

  method CheckPackageJobs(targets: map<string, Target>, packages: set<string>, policy: Policy)
    returns (errors: seq<Problem>)
    ensures forall p :: p in errors <==> p.UndefinedPackageJob? && PolicyProblem(p, targets, packages, policy)
  {
    errors := Report(policy.packageJobs.Keys,
                     (p: string) => p in policy.packageJobs && policy.packageJobs[p] !in policy.jobs,
                     (p: string) => UndefinedPackageJob(p));
  }

  method CheckSims(targets: map<string, Target>, packages: set<string>, policy: Policy, declared: map<string, string>)
    returns (errors: seq<Problem>)
    requires forall n :: n in declared <==> Declared(policy.simGroups, policy.simGroups.Keys, n)
    ensures forall p :: p in errors <==> p.StaleSim? && PolicyProblem(p, targets, packages, policy)
  {
    var live := set key | key in targets && targets[key].package == SIM_PACKAGE
        && targets[key].kind == "test" :: targets[key].name;
    assert forall n :: LiveSim(targets, n) <==> n in live;
    errors := ReportEach(declared.Keys - live, (n: string) => StaleSim(n));
    forall p: Problem | p.StaleSim? ensures p in errors <==> PolicyProblem(p, targets, packages, policy) {
      assert p.name in declared.Keys - live <==> PolicyProblem(p, targets, packages, policy);
    }
  }

  method CheckExplicit(targets: map<string, Target>, packages: set<string>, policy: Policy)
    returns (errors: seq<Problem>)
    ensures forall p :: p in errors <==> p.InvalidOwner? && PolicyProblem(p, targets, packages, policy)
  {
    errors := Report(policy.targetJobs.Keys,
                     (key: string) => key !in targets
                         || (key in policy.targetJobs && policy.targetJobs[key] !in policy.jobs),
                     (key: string) => InvalidOwner(key));
  }

  method CheckPolicy(targets: map<string, Target>, packages: set<string>, policy: Policy, declared: map<string, string>)
    returns (errors: seq<Problem>)
    requires forall n :: n in declared <==> Declared(policy.simGroups, policy.simGroups.Keys, n)
    ensures errors == [] <==> PolicyClosed(targets, packages, policy)
    ensures forall p :: p in errors <==> PolicyProblem(p, targets, packages, policy)
  {
    var simLib := if policy.simLibJob !in policy.jobs then [UndefinedSimLibJob] else [];
    var named := CheckPackages(targets, packages, policy);
    var undefinedJobs := CheckPackageJobs(targets, packages, policy);
    var staleSims := CheckSims(targets, packages, policy, declared);
    var invalid := CheckExplicit(targets, packages, policy);
    errors := simLib + named + undefinedJobs + staleSims + invalid;
    assert forall p :: p in errors <==>
               p in simLib || p in named || p in undefinedJobs || p in staleSims || p in invalid;
    NoPolicyProblemIff(targets, packages, policy);
    assert errors != [] ==> errors[0] in errors;
  }

  lemma NoPolicyProblemIff(targets: map<string, Target>, packages: set<string>, policy: Policy)
    ensures (forall p :: !PolicyProblem(p, targets, packages, policy)) <==> PolicyClosed(targets, packages, policy)
  {
    if forall p :: !PolicyProblem(p, targets, packages, policy) {
      assert !PolicyProblem(UndefinedSimLibJob, targets, packages, policy);
      forall p ensures p in packages <==> p in policy.packageJobs.Keys + {SIM_PACKAGE} {
        assert !PolicyProblem(UnassignedPackage(p), targets, packages, policy);
        assert !PolicyProblem(StalePackage(p), targets, packages, policy);
      }
      forall p | p in policy.packageJobs ensures policy.packageJobs[p] in policy.jobs {
        assert !PolicyProblem(UndefinedPackageJob(p), targets, packages, policy);
      }
      forall n | Declared(policy.simGroups, policy.simGroups.Keys, n) ensures LiveSim(targets, n) {
        assert !PolicyProblem(StaleSim(n), targets, packages, policy);
      }
      forall key | key in policy.targetJobs ensures key in targets && policy.targetJobs[key] in policy.jobs {
        assert !PolicyProblem(InvalidOwner(key), targets, packages, policy);
      }
    }
  }

  /** `assignments`: it returns owners exactly when there are owners that keep the promise, and then those. */
  method Assignments(targets: map<string, Target>, packages: set<string>, policy: Policy)
    returns (owner: Option<map<string, string>>)
    ensures owner.Some? ==> Assigned(targets, packages, policy, owner.value)
    ensures owner.None? ==> forall other :: !Assigned(targets, packages, policy, other)
  {
    var declared, simErrors := DeclareSims(policy);
    var found, ownerErrors := AssignOwners(targets, policy, declared);
    var policyErrors := CheckPolicy(targets, packages, policy, declared);
    var jobErrors := CheckJobs(targets, found, policy);
    if simErrors + ownerErrors + policyErrors + jobErrors != [] {
      forall other ensures !Assigned(targets, packages, policy, other) {
        if Assigned(targets, packages, policy, other) {
          AssignedIsFound(targets, packages, policy, declared, found, other);
        }
      }
      return None;
    }
    OwnersUnique(targets, policy, declared);
    owner := Some(found);
  }

  // ---- Proofs ----------------------------------------------------------------------------------------

  /** When no simulation target is named twice, the program proposes the one job the policy names. */
  lemma OwnersUnique(targets: map<string, Target>, policy: Policy, declared: map<string, string>)
    requires SimsClosed(policy)
    requires forall n :: n in declared <==> Declared(policy.simGroups, policy.simGroups.Keys, n)
    requires forall n :: n in declared ==> declared[n] in policy.simGroups && n in policy.simGroups[declared[n]]
    ensures forall key, job :: key in targets && OwnedBy(policy, key, targets[key], job) ==>
              job == ProposedJob(policy, declared, key, targets[key])
    ensures forall key :: key in targets && ProposedJob(policy, declared, key, targets[key]) != "" ==>
              OwnedBy(policy, key, targets[key], ProposedJob(policy, declared, key, targets[key]))
  {
  }

  lemma AssignedIsFound(targets: map<string, Target>, packages: set<string>, policy: Policy,
                        declared: map<string, string>,
                        found: map<string, string>, other: map<string, string>)
    requires Assigned(targets, packages, policy, other)
    requires forall n :: n in declared <==> Declared(policy.simGroups, policy.simGroups.Keys, n)
    requires forall n :: n in declared ==> declared[n] in policy.simGroups && n in policy.simGroups[declared[n]]
    requires found.Keys <= targets.Keys
    requires forall key :: key in found ==> found[key] == ProposedJob(policy, declared, key, targets[key])
    ensures forall key :: key in targets ==>
              var job := ProposedJob(policy, declared, key, targets[key]);
              job != "" && job in policy.jobs && Meets(policy, key, job)
    ensures found.Keys == targets.Keys ==> found == other
  {
    OwnersUnique(targets, policy, declared);
  }

  /** Which targets a requirement is for: the one it names, or with a wildcard all that continue its prefix. */
  lemma SelectsIff(selector: string, key: string)
    ensures Selects(selector, key) <==>
              || selector == key
              || exists prefix, rest :: selector == prefix + ":*" && key == prefix + ":" + rest
  {
    if |selector| >= 2 && selector[|selector| - 2..] == ":*" && selector[..|selector| - 1] <= key {
      var prefix, n := selector[..|selector| - 2], |selector| - 1;
      assert selector == prefix + ":*";
      assert selector[..n] == prefix + ":" && key == selector[..n] + key[n..];
      assert key == prefix + ":" + key[n..];
    }
    if prefix, rest :| selector == prefix + ":*" && key == prefix + ":" + rest {
      assert selector[|selector| - 2..] == ":*" && selector[..|selector| - 1] == prefix + ":";
    }
  }

  lemma {:induction false} PackageOfId(package: string, rest: string)
    requires '/' !in package
    ensures PackageOf(package + "/" + rest) == package
  {
    var key := package + "/" + rest;
    if package != [] {
      assert key[1..] == package[1..] + "/" + rest;
      PackageOfId(package[1..], rest);
    }
  }

  /** The features a job runs a target with: its package's own list if the job has one, else the job's. */
  lemma FeaturesOf(spec: JobSpec, package: string, kind: string, name: string)
    requires '/' !in package
    ensures var features := FeaturesFor(spec, TargetId(package, kind, name));
            && (package in spec.packageFeatures ==> features == spec.packageFeatures[package])
            && (package !in spec.packageFeatures ==> features == spec.features)
  {
    PackageOfId(package, kind + ":" + name);
    assert TargetId(package, kind, name) == package + "/" + (kind + ":" + name);
  }

  /** Parallel tests may use one to four threads. */
  lemma ThreadsOkIff(threads: Option<int>)
    ensures ThreadsOk(threads) <==> threads in {Some(1), Some(2), Some(3), Some(4)}
  {
  }

  /** Who the owner is: an explicit entry wins over everything else. */
  lemma OwnerIs(targets: map<string, Target>, packages: set<string>, policy: Policy, owner: map<string, string>,
                key: string)
    requires Assigned(targets, packages, policy, owner) && key in targets
    ensures key in policy.targetJobs ==> owner[key] == policy.targetJobs[key]
    ensures key !in policy.targetJobs && targets[key].package != SIM_PACKAGE ==>
              targets[key].package in policy.packageJobs && owner[key] == policy.packageJobs[targets[key].package]
    ensures key !in policy.targetJobs && targets[key].package == SIM_PACKAGE ==>
              if targets[key].kind == "test"
              then owner[key] in policy.simGroups && targets[key].name in policy.simGroups[owner[key]]
              else owner[key] == policy.simLibJob
  {
    assert OwnedBy(policy, key, targets[key], owner[key]);
  }

  /** Every name in a simulation group is the name of a test of the simulation package. */
  lemma DeclaredSimIsATest(targets: map<string, Target>, packages: set<string>, policy: Policy,
                           owner: map<string, string>, job: string, name: string)
    requires Assigned(targets, packages, policy, owner)
    requires job in policy.simGroups && name in policy.simGroups[job]
    ensures exists key :: key in targets && targets[key] == Target(SIM_PACKAGE, "test", name)
  {
    assert Declared(policy.simGroups, policy.simGroups.Keys, name);
    assert LiveSim(targets, name);
    var key :| key in targets && targets[key].package == SIM_PACKAGE && targets[key].kind == "test"
               && targets[key].name == name;
    assert targets[key] == Target(SIM_PACKAGE, "test", name);
  }

  /** `selected_targets`, as the keys it selects. */
  function SelectedTargets(job: string, targets: map<string, Target>, owner: map<string, string>,
          spec: JobSpec): set<string> {
    set key | key in targets && (Owns(owner, key, job) || key in (set n | n in spec.supplemental :: SimKey(n)))
  }

  /** The job runs this target as a supplement. */
  ghost predicate Supplements(policy: Policy, job: string, key: string) {
    job in policy.jobs && exists n :: n in policy.jobs[job].supplemental && key == SimKey(n)
  }

  /** A target that is nobody's supplement is run by exactly one job, the one the policy names. */
  lemma RunByOneJob(targets: map<string, Target>, packages: set<string>, policy: Policy, owner: map<string, string>,
                    key: string, job: string)
    requires Assigned(targets, packages, policy, owner) && key in targets && job in policy.jobs
    requires forall j :: !Supplements(policy, j, key)
    ensures key in SelectedTargets(job, targets, owner, policy.jobs[job]) <==> job == owner[key]
    ensures job == owner[key] <==> OwnedBy(policy, key, targets[key], job)
  {
    InventoryIsCovered(targets, packages, policy, owner, key);
  }

  /** After a successful assignment every target is run by the job that owns it and primary in no other job, the jobs
      together select exactly the inventory, a job selects exactly what the policy makes it own and its supplements, and
      these it does not own. */
  lemma InventoryIsCovered(targets: map<string, Target>, packages: set<string>, policy: Policy,
                           owner: map<string, string>, key: string)
    requires Assigned(targets, packages, policy, owner)
    ensures key in targets <==>
              exists job :: job in policy.jobs && key in SelectedTargets(job, targets, owner, policy.jobs[job])
    ensures key in targets ==>
              && owner[key] in policy.jobs && OwnedBy(policy, key, targets[key], owner[key])
              && forall job :: job in policy.jobs && OwnedBy(policy, key, targets[key], job) ==> job == owner[key]
    ensures forall job, n :: job in policy.jobs && n in policy.jobs[job].supplemental ==>
              SimKey(n) in SelectedTargets(job, targets, owner, policy.jobs[job]) && !Owns(owner, SimKey(n), job)
    ensures key in targets ==> forall job :: job in policy.jobs ==>
              (key in SelectedTargets(job, targets, owner, policy.jobs[job]) <==>
                 OwnedBy(policy, key, targets[key], job) || Supplements(policy, job, key))
  {
    if key in targets {
      assert key in SelectedTargets(owner[key], targets, owner, policy.jobs[owner[key]]);
    }
    forall job, n | job in policy.jobs && n in policy.jobs[job].supplemental
      ensures SimKey(n) in SelectedTargets(job, targets, owner, policy.jobs[job]) && !Owns(owner, SimKey(n), job)
    {
      assert JobOk(targets, owner, job, policy.jobs[job]);
      assert SimKey(n) in set m | m in policy.jobs[job].supplemental :: SimKey(m);
    }
  }
}
