/** Looking up repositories, tokens and artifacts by name during a run (CloneAll in api/v1/repo.go,
    TokenByName in api/v1/token.go, api/v1/artifact.go, the builds of api/v1/runner.go), and the
    soundness of the validator: a job it accepted does not fail such a lookup. */
module Lookups {
  import opened Wrappers
  import opened PodSpecs
  import opened Builder
  import opened PreInit
  import opened PreInitCopies
  import opened Validation
  import opened Names
  import opened Scheduler

  /*** A run, as far as names are concerned. ***/

  /** One call of BuildWithKey.  `dirs` are the temporary directories that could be created for its
      artifacts; `stops` says that the run ends after it for another reason, such as a failed step. */
  datatype BuildRequest = BuildRequest(template: Template, key: Option<KeySpec>, dirs: seq<string>, stops: bool)

  datatype Progress = Through(names: NameSets) | Stopped | NotFound

  function Resources(n: NameSets): set<Resource> {
    (set s | s in n.repos :: Repo(s)) + (set s | s in n.tokens :: Token(s)) + (set s | s in n.artifacts :: Artifact(s))
  }

  function WantedBy(q: BuildRequest, main: Container, dryRun: bool): set<Resource> {
    Wanted(BuildOf(q.template, main, q.key), dryRun)
  }

  function WithArtifacts(n: NameSets, t: Template): NameSets {
    n.(artifacts := n.artifacts + ArtifactNames(t.artifacts))
  }

  /** The artifacts that get a directory; the error of the first that gets none is dropped. */
  function Created(q: BuildRequest): (specs: seq<ArtifactSpec>)
    ensures |specs| == (if |q.dirs| < |q.template.artifacts| then |q.dirs| else |q.template.artifacts|)
    ensures specs <= q.template.artifacts
    ensures |q.dirs| >= |q.template.artifacts| ==> specs == q.template.artifacts
  {
    if |q.dirs| >= |q.template.artifacts| then q.template.artifacts else q.template.artifacts[..|q.dirs|]
  }

  function Registers(n: NameSets, q: BuildRequest): NameSets {
    n.(artifacts := n.artifacts + ArtifactNames(Created(q)))
  }

  /** Every temporary directory could be created. */
  predicate AllCreated(qs: seq<BuildRequest>) {
    forall i :: 0 <= i < |qs| ==> |qs[i].dirs| >= |qs[i].template.artifacts|
  }

  /** A build looks its resources up first and registers the artifacts of its step afterwards. */
  function BuildsOutcome(qs: seq<BuildRequest>, n: NameSets, dryRun: bool): Progress
    decreases |qs|
  {
    if qs == [] then Through(n)
    else
      match MainContainer(qs[0].template)
      case Err(_) => Stopped
      case Ok(main) =>
        if !(WantedBy(qs[0], main, dryRun) <= Resources(n)) then NotFound
        else if qs[0].stops then Stopped
        else BuildsOutcome(qs[1..], Registers(n, qs[0]), dryRun)
  }

  /** The builds of a run in order. */
  datatype JobRun = JobRun(pre: seq<BuildRequest>, dynamic: seq<BuildRequest>, main: seq<BuildRequest>, post: seq<BuildRequest>)

  function AllBuilds(run: JobRun): seq<BuildRequest> {
    run.pre + (run.dynamic + (run.main + run.post))
  }

  predicate BuildsOf(qs: seq<BuildRequest>, steps: seq<StepSpec>) {
    |qs| == |steps| && forall i :: 0 <= i < |qs| ==> qs[i].template == steps[i].template && qs[i].key.None?
  }

  function DynamicSteps(spec: JobSpec): seq<StepSpec> {
    if spec.strategy.Some? && spec.strategy.value.dynamic.Some? then [spec.strategy.value.dynamic.value] else []
  }

  /** The steps of a job, with any number of builds of the main step: one without a strategy,
      otherwise one per task of the schedule. */
  predicate RunOf(run: JobRun, spec: JobSpec) {
    && BuildsOf(run.pre, spec.preSteps) && BuildsOf(run.dynamic, DynamicSteps(spec)) && BuildsOf(run.post, spec.postSteps)
    && forall i :: 0 <= i < |run.main| ==> run.main[i].template == spec.mainStep.template
  }

  predicate ExportsFound(exports: seq<ExportSpec>, n: NameSets) {
    forall i :: 0 <= i < |exports| ==> exports[i].name in n.artifacts
  }

  /** The whole run, exports included. */
  function JobOutcome(spec: JobSpec, run: JobRun, n: NameSets, dryRun: bool): Progress {
    var p := BuildsOutcome(AllBuilds(run), n, dryRun);
    if p.Through? && !ExportsFound(spec.exports, p.names) then NotFound else p
  }

  /** What is known when the steps begin: the declared tokens and the cloned repositories. */
  function SetUp(spec: JobSpec): NameSets {
    NameSets(TokenNames(spec.tokens), RepoNames(spec.repos), {})
  }

  /*** The managers and the runner. ***/

  /** A map after its names were assigned in order. */
  function Registered(m: map<string, string>, names: seq<string>, values: seq<string>): map<string, string>
    requires |names| <= |values|
    decreases |names|
  {
    if names == [] then m
    else
      var n := |names| - 1;
      Registered(m, names[..n], values)[names[n] := values[n]]
  }

  function NameList(specs: seq<ArtifactSpec>): (r: seq<string>)
    ensures |r| == |specs|
  {
    seq(|specs|, i requires 0 <= i < |specs| => specs[i].name)
  }

  function FileList(specs: seq<ArtifactSpec>): (r: seq<string>)
    ensures |r| == |specs|
  {
    seq(|specs|, i requires 0 <= i < |specs| => Base(specs[i].path))
  }

  predicate LastAt(names: seq<string>, i: nat) {
    i < |names| && forall j :: i < j < |names| ==> names[j] != names[i]
  }

  /** Of several artifacts with one name the last counts; other names keep their value. */
  lemma {:induction false} RegisteredValue(m: map<string, string>, names: seq<string>, values: seq<string>, name: string)
    requires |names| <= |values|
    ensures var m' := Registered(m, names, values);
      && (name in m' <==> name in m || name in names)
      && (name !in names && name in m ==> m'[name] == m[name])
      && (forall i: nat :: LastAt(names, i) && names[i] == name ==> m'[name] == values[i])
    decreases |names|
  {
    if names != [] {
      var n := |names| - 1;
      RegisteredValue(m, names[..n], values, name);
      forall i: nat | LastAt(names, i) && names[i] == name ensures Registered(m, names, values)[name] == values[i] {
        assert i < n ==> LastAt(names[..n], i);
      }
    }
  }

  lemma RegisteredKeys(m: map<string, string>, specs: seq<ArtifactSpec>, values: seq<string>)
    requires |specs| <= |values|
    ensures Registered(m, NameList(specs), values).Keys == m.Keys + ArtifactNames(specs)
  {
    forall name ensures name in Registered(m, NameList(specs), values) <==> name in m || name in ArtifactNames(specs) {
      RegisteredValue(m, NameList(specs), values, name);
      if name in NameList(specs) {
        var i :| 0 <= i < |specs| && NameList(specs)[i] == name;
      }
      if name in ArtifactNames(specs) {
        var i :| 0 <= i < |specs| && specs[i].name == name;
        assert NameList(specs)[i] == name;
      }
    }
  }

  /** nameToLocalDirs and nameToLocalFiles. */
  class ArtifactManager {
    var localDirs: map<string, string>
    var localFiles: map<string, string>

    predicate Valid()
      reads this
    {
      localDirs.Keys == localFiles.Keys
    }

    constructor ()
      ensures Valid() && localDirs == map[]
    {
      localDirs, localFiles := map[], map[];
    }

    /** The temporary directories that could be created are given; running out of them is the error
        of AddArtifacts. */
    method AddArtifacts(specs: seq<ArtifactSpec>, tempDirs: seq<string>) returns (ok: bool)
      requires Valid()
      modifies this
      ensures Valid()
      ensures ok <==> |tempDirs| >= |specs|
      ensures var done := specs[..if ok then |specs| else |tempDirs|];
        && localDirs == Registered(old(localDirs), NameList(done), tempDirs)
        && localFiles == Registered(old(localFiles), NameList(done), FileList(done))
    {
      for i := 0 to |specs|
        invariant Valid() && i <= |tempDirs|
        invariant localDirs == Registered(old(localDirs), NameList(specs[..i]), tempDirs)
        invariant localFiles == Registered(old(localFiles), NameList(specs[..i]), FileList(specs[..i]))
      {
        if i == |tempDirs| {
          return false;
        }
        RegisteredSnoc(old(localDirs), old(localFiles), specs, tempDirs, i);
        localDirs := localDirs[specs[i].name := tempDirs[i]];
        localFiles := localFiles[specs[i].name := Base(specs[i].path)];
      }
      assert specs[..|specs|] == specs;
      ok := true;
    }

    method ExportPathByName(name: string) returns (r: Option<string>)
      requires Valid()
      ensures r == if name in localDirs then Some(localDirs[name]) else None
    {
      r := if name in localDirs then Some(localDirs[name]) else None;
    }

    /** Fails exactly for a name that ExportPathByName does not know either. */
    method LocalPathByNameAndContainerName(name: string, containerName: string) returns (r: Option<string>)
      requires Valid()
      ensures r.Some? <==> name in localDirs
      ensures r.Some? ==> r.value == LocalPath(localDirs[name], containerName, localFiles[name])
    {
      if name !in localDirs {
        return None;
      }
      if name !in localFiles {
        return None;
      }
      r := Some(LocalPath(localDirs[name], containerName, localFiles[name]));
    }
  }

  lemma RegisteredSnoc(dirs: map<string, string>, files: map<string, string>, specs: seq<ArtifactSpec>,
                       tempDirs: seq<string>, i: nat)
    requires i < |specs| && i < |tempDirs|
    ensures Registered(dirs, NameList(specs[..i + 1]), tempDirs)
            == Registered(dirs, NameList(specs[..i]), tempDirs)[specs[i].name := tempDirs[i]]
    ensures Registered(files, NameList(specs[..i + 1]), FileList(specs[..i + 1]))
            == Registered(files, NameList(specs[..i]), FileList(specs[..i]))[specs[i].name := Base(specs[i].path)]
  {
    assert NameList(specs[..i + 1])[..i] == NameList(specs[..i]);
    RegisteredPrefix(files, NameList(specs[..i]), FileList(specs[..i + 1]), FileList(specs[..i]));
  }

  lemma {:induction false} RegisteredPrefix(m: map<string, string>, names: seq<string>, values: seq<string>, values': seq<string>)
    requires |names| <= |values| && |names| <= |values'|
    requires forall i :: 0 <= i < |names| ==> values[i] == values'[i]
    ensures Registered(m, names, values) == Registered(m, names, values')
    decreases |names|
  {
    if names != [] {
      RegisteredPrefix(m, names[..|names| - 1], values, values');
    }
  }

  /*** Cloning. ***/

  /** Whether repository i is cloned, given what existsDir says when its turn comes. */
  predicate Cloned(repos: seq<RepoSpec>, onDisk: nat -> bool, i: nat)
    requires i < |repos|
  {
    repos[i].clonedPath == "" || !onDisk(i)
  }

  predicate Undeclared(repos: seq<RepoSpec>, tokens: set<string>, i: nat)
    requires i < |repos|
  {
    repos[i].token != "" && repos[i].token !in tokens
  }

  /** CloneAll as far as names are concerned: it fails on an undeclared token. */
  method CloneAll(repos: seq<RepoSpec>, tokens: set<string>, onDisk: nat -> bool) returns (r: Option<set<string>>)
    ensures r.None? <==> exists i :: 0 <= i < |repos| && Cloned(repos, onDisk, i) && Undeclared(repos, tokens, i)
    ensures r.Some? ==> r.value == RepoNames(repos)
  {
    var archives: set<string> := {};
    for i := 0 to |repos|
      invariant archives == set j | 0 <= j < i :: repos[j].name
      invariant forall j :: 0 <= j < i ==> !(Cloned(repos, onDisk, j) && Undeclared(repos, tokens, j))
    {
      if repos[i].clonedPath == "" || !onDisk(i) {
        if repos[i].token != "" && repos[i].token !in tokens {
          assert Cloned(repos, onDisk, i) && Undeclared(repos, tokens, i);
          return None;
        }
      }
      archives := archives + {repos[i].name};
    }
    r := Some(archives);
  }

  /** An accepted job's repositories can be cloned exactly when none that has a cloned path whose
      directory is missing asks for an undeclared token: the validator returns early for those. */
  lemma AcceptedReposClone(spec: JobSpec, onDisk: nat -> bool)
    requires Accepted(spec)
    ensures var tokens := TokenNames(spec.tokens);
      (exists i :: 0 <= i < |spec.repos| && Cloned(spec.repos, onDisk, i) && Undeclared(spec.repos, tokens, i))
      <==> (exists i :: 0 <= i < |spec.repos| && spec.repos[i].clonedPath != "" && !onDisk(i) && Undeclared(spec.repos, tokens, i))
  {
    var tokens := TokenNames(spec.tokens);
    TokensAdded(spec.tokens, NoNames);
    ReposAdded(spec.repos, AddTokens(spec.tokens, NoNames).value);
    forall i | 0 <= i < |spec.repos| && Undeclared(spec.repos, tokens, i)
      ensures Cloned(spec.repos, onDisk, i) <==> spec.repos[i].clonedPath != "" && !onDisk(i)
    {
      assert RepoOk(spec.repos[i], tokens);
    }
  }

  /*** The validator's names against the run's. ***/

  predicate Within(n: NameSets, n': NameSets) {
    n.tokens <= n'.tokens && n.repos <= n'.repos && n.artifacts <= n'.artifacts
  }

  lemma VolumesNamed(volumes: seq<Volume>, stepType: StepType, n: NameSets)
    requires VolumesOk(volumes, stepType, n)
    ensures NamedVolumes(volumes)
  {
  }

  /** Whatever a build wants is the source of a volume its template declares. */
  lemma WantedDeclared(t: Template, main: Container, key: Option<KeySpec>, dryRun: bool, r: Resource) returns (i: nat)
    requires NamedVolumes(t.volumes) && r in Wanted(BuildOf(t, main, key), dryRun)
    ensures i < |t.volumes| && KindOf(t.volumes[i].source) == ResourceKind(r)
  {
    WantedStages(BuildOf(t, main, key), r);
    var path :| Stages(BuildOf(t, main, key), r, path);
    var name := StagedBy(t, main, key, r, path);
    LookupDeclared(t.volumes, name);
    i :| 0 <= i < |t.volumes| && t.volumes[i] == Lookup(t.volumes, name);
  }

  /** A step whose volumes were accepted against names that the run knows finds all it wants. */
  lemma StepFindsAll(t: Template, stepType: StepType, n: NameSets, main: Container, key: Option<KeySpec>, dryRun: bool)
    requires VolumesOk(t.volumes, stepType, n)
    ensures Wanted(BuildOf(t, main, key), dryRun) <= Resources(n)
  {
    VolumesNamed(t.volumes, stepType, n);
    forall r | r in Wanted(BuildOf(t, main, key), dryRun) ensures r in Resources(n) {
      var i := WantedDeclared(t, main, key, dryRun, r);
      assert SourceOk(t.volumes[i].source, stepType, n);
    }
  }

  lemma ResourcesGrow(n: NameSets, n': NameSets)
    requires Within(n, n')
    ensures Resources(n) <= Resources(n')
  {
  }

  lemma StepAdded(s: StepSpec, stepType: StepType, n: NameSets)
    requires AddStep(s, stepType, n).Some?
    ensures AddStep(s, stepType, n).value == WithArtifacts(n, s.template)
    ensures VolumesOk(s.template.volumes, stepType, n)
    ensures n.artifacts !! ArtifactNames(s.template.artifacts)
  {
    ArtifactsAdded(s.template.artifacts, s.template.containers, n);
  }

  lemma {:induction false} OutcomeConcat(a: seq<BuildRequest>, b: seq<BuildRequest>, n: NameSets, dryRun: bool)
    ensures BuildsOutcome(a + b, n, dryRun) ==
            match BuildsOutcome(a, n, dryRun)
            case Through(n') => BuildsOutcome(b, n', dryRun)
            case Stopped => Stopped
            case NotFound => NotFound
    decreases |a|
  {
    if a == [] {
      assert a + b == b;
    } else {
      assert (a + b)[1..] == a[1..] + b && (a + b)[0] == a[0];
      OutcomeConcat(a[1..], b, Registers(n, a[0]), dryRun);
    }
  }

  predicate Unknown(r: Resource, n: NameSets) {
    match r
    case Repo(name) => name !in n.repos
    case Token(name) => name !in n.tokens
    case Artifact(name) => name !in n.artifacts
  }

  /** A build fails a lookup exactly when it has a main container and one of its containers mounts a
      repository, a token or, outside a dry run, an artifact that is not known. */
  lemma BuildFailsExactly(q: BuildRequest, n: NameSets, dryRun: bool)
    ensures BuildsOutcome([q], n, dryRun) == NotFound <==>
            && MainContainer(q.template).Ok?
            && var b := BuildOf(q.template, MainContainer(q.template).value, q.key);
               exists r, path :: Stages(b, r, path) && Unknown(r, n) && !(dryRun && r.Artifact?)
  {
    if MainContainer(q.template).Ok? {
      var main := MainContainer(q.template).value;
      var b := BuildOf(q.template, main, q.key);
      forall r ensures r in Resources(n) <==> !Unknown(r, n) {
      }
      forall r ensures r in Wanted(b, dryRun) <==> (exists path :: Stages(b, r, path)) && !(dryRun && r.Artifact?) {
        WantedStages(b, r);
      }
    }
  }

  /** A build that ends the run for another reason ends it there, whatever would come after. */
  lemma StopEndsRun(before: seq<BuildRequest>, q: BuildRequest, after: seq<BuildRequest>, n: NameSets, dryRun: bool)
    requires BuildsOutcome(before, n, dryRun).Through? && (q.stops || MainContainer(q.template).Err?)
    requires var known := BuildsOutcome(before, n, dryRun).names;
      MainContainer(q.template).Ok? ==> WantedBy(q, MainContainer(q.template).value, dryRun) <= Resources(known)
    ensures BuildsOutcome(before + ([q] + after), n, dryRun) == Stopped
  {
    OutcomeConcat(before, [q] + after, n, dryRun);
  }

  /** The validator's walk over some steps simulates the run's. */
  lemma {:induction false} StepsSound(qs: seq<BuildRequest>, steps: seq<StepSpec>, stepType: StepType, n: NameSets, r: NameSets, dryRun: bool)
    requires BuildsOf(qs, steps) && AllCreated(qs) && AddSteps(steps, stepType, n).Some? && Within(n, r)
    ensures !BuildsOutcome(qs, r, dryRun).NotFound?
    ensures BuildsOutcome(qs, r, dryRun).Through? ==> Within(AddSteps(steps, stepType, n).value, BuildsOutcome(qs, r, dryRun).names)
    decreases |steps|
  {
    if steps != [] {
      var t := qs[0].template;
      StepAdded(steps[0], stepType, n);
      match MainContainer(t) {
        case Err(_) =>
        case Ok(main) =>
          StepFindsAll(t, stepType, n, main, qs[0].key, dryRun);
          ResourcesGrow(n, r);
          StepsSound(qs[1..], steps[1..], stepType, WithArtifacts(n, t), WithArtifacts(r, t), dryRun);
      }
    }
  }

  /** One or more builds of the main step. */
  lemma {:induction false} MainSound(qs: seq<BuildRequest>, s: StepSpec, n: NameSets, r: NameSets, dryRun: bool)
    requires AllCreated(qs) && AddStep(s, MainStepType, n).Some? && Within(n, r)
    requires forall i :: 0 <= i < |qs| ==> qs[i].template == s.template
    ensures !BuildsOutcome(qs, r, dryRun).NotFound?
    ensures BuildsOutcome(qs, r, dryRun).Through? ==> Within(r, BuildsOutcome(qs, r, dryRun).names)
    ensures BuildsOutcome(qs, r, dryRun).Through? && qs != [] ==> Within(AddStep(s, MainStepType, n).value, BuildsOutcome(qs, r, dryRun).names)
    decreases |qs|
  {
    if qs != [] {
      StepAdded(s, MainStepType, n);
      match MainContainer(s.template) {
        case Err(_) =>
        case Ok(main) =>
          StepFindsAll(s.template, MainStepType, n, main, qs[0].key, dryRun);
          ResourcesGrow(n, r);
          MainSound(qs[1..], s, n, WithArtifacts(r, s.template), dryRun);
      }
    }
  }

  function DynamicNames(spec: JobSpec, n: NameSets): Option<NameSets> {
    if spec.strategy.Some? && spec.strategy.value.dynamic.Some?
    then AddStep(spec.strategy.value.dynamic.value, MainStepType, n) else Some(n)
  }

  /** The validator's names before and after each part of an accepted job. */
  lemma AcceptedParts(spec: JobSpec) returns (n1: NameSets, n2: NameSets, n3: NameSets, n4: NameSets)
    requires Accepted(spec)
    ensures AddSteps(spec.preSteps, PreStepType, SetUp(spec)) == Some(n1)
    ensures DynamicNames(spec, n1) == Some(n2)
    ensures AddStep(spec.mainStep, MainStepType, n2) == Some(n3)
    ensures AddSteps(spec.postSteps, PostStepType, n3) == Some(n4)
    ensures ExportsOk(spec.exports, n4)
  {
    TokensAdded(spec.tokens, NoNames);
    var n := AddTokens(spec.tokens, NoNames).value;
    ReposAdded(spec.repos, n);
    assert AddRepos(spec.repos, n).value == SetUp(spec);
    n1 := AddSteps(spec.preSteps, PreStepType, SetUp(spec)).value;
    n2 := DynamicNames(spec, n1).value;
    n3 := AddStep(spec.mainStep, MainStepType, n2).value;
    n4 := AddSteps(spec.postSteps, PostStepType, n3).value;
  }

  lemma DynamicSound(spec: JobSpec, qs: seq<BuildRequest>, n: NameSets, r: NameSets, dryRun: bool)
    requires BuildsOf(qs, DynamicSteps(spec)) && AllCreated(qs) && DynamicNames(spec, n).Some? && Within(n, r)
    ensures !BuildsOutcome(qs, r, dryRun).NotFound?
    ensures BuildsOutcome(qs, r, dryRun).Through? ==> Within(DynamicNames(spec, n).value, BuildsOutcome(qs, r, dryRun).names)
  {
    if qs != [] {
      var s := spec.strategy.value.dynamic.value;
      MainSound(qs, s, n, r, dryRun);
    }
  }

  lemma CreatedParts(a: seq<BuildRequest>, b: seq<BuildRequest>)
    requires AllCreated(a + b)
    ensures AllCreated(a) && AllCreated(b)
  {
    forall i | 0 <= i < |a| ensures a[i] == (a + b)[i] {
    }
    forall i | 0 <= i < |b| ensures b[i] == (a + b)[|a| + i] {
    }
  }

  /** Soundness: a job the validator accepted never fails a lookup of a repository, token or
      artifact, neither in a prestep, the key task, the main step or a poststep nor when it exports,
      provided the main step is built at least once and no temporary directory is missing. */
  lemma AcceptedJobFindsAll(spec: JobSpec, run: JobRun, dryRun: bool)
    requires Accepted(spec) && RunOf(run, spec) && run.main != [] && AllCreated(AllBuilds(run))
    ensures JobOutcome(spec, run, SetUp(spec), dryRun) != NotFound
  {
    var n1, n2, n3, n4 := AcceptedParts(spec);
    CreatedParts(run.pre, run.dynamic + (run.main + run.post));
    CreatedParts(run.dynamic, run.main + run.post);
    CreatedParts(run.main, run.post);
    OutcomeConcat(run.pre, run.dynamic + (run.main + run.post), SetUp(spec), dryRun);
    StepsSound(run.pre, spec.preSteps, PreStepType, SetUp(spec), SetUp(spec), dryRun);
    var p1 := BuildsOutcome(run.pre, SetUp(spec), dryRun);
    if p1.Through? {
      OutcomeConcat(run.dynamic, run.main + run.post, p1.names, dryRun);
      DynamicSound(spec, run.dynamic, n1, p1.names, dryRun);
      var p2 := BuildsOutcome(run.dynamic, p1.names, dryRun);
      if p2.Through? {
        OutcomeConcat(run.main, run.post, p2.names, dryRun);
        MainSound(run.main, spec.mainStep, n2, p2.names, dryRun);
        var p3 := BuildsOutcome(run.main, p2.names, dryRun);
        if p3.Through? {
          StepsSound(run.post, spec.postSteps, PostStepType, n3, p3.names, dryRun);
        }
      }
    }
  }

  /*** Without a build of the main step. ***/

  /** No build of the run ends it for another reason or lacks a temporary directory. */
  predicate Unhindered(qs: seq<BuildRequest>) {
    forall i :: 0 <= i < |qs| ==>
      !qs[i].stops && MainContainer(qs[i].template).Ok? && |qs[i].dirs| >= |qs[i].template.artifacts|
  }

  /** The build wants an artifact of the given names. */
  predicate WantsMissing(q: BuildRequest, missing: set<string>, dryRun: bool) {
    MainContainer(q.template).Ok? && exists name :: name in missing && Artifact(name) in WantedBy(q, MainContainer(q.template).value, dryRun)
  }

  predicate SomeWantsMissing(qs: seq<BuildRequest>, missing: set<string>, dryRun: bool) {
    exists i :: 0 <= i < |qs| && WantsMissing(qs[i], missing, dryRun)
  }

  lemma WantsTail(qs: seq<BuildRequest>, missing: set<string>, dryRun: bool)
    requires qs != []
    ensures SomeWantsMissing(qs, missing, dryRun) <==>
            WantsMissing(qs[0], missing, dryRun) || SomeWantsMissing(qs[1..], missing, dryRun)
  {
    var rest := qs[1..];
    if i :| 0 <= i < |qs| && WantsMissing(qs[i], missing, dryRun) {
      assert i > 0 ==> rest[i - 1] == qs[i];
    }
    if i :| 0 <= i < |rest| && WantsMissing(rest[i], missing, dryRun) {
      assert qs[i + 1] == rest[i];
    }
  }

  lemma StepLacking(q: BuildRequest, stepType: StepType, n: NameSets, missing: set<string>, dryRun: bool)
    requires VolumesOk(q.template.volumes, stepType, n) && MainContainer(q.template).Ok?
    ensures WantsMissing(q, missing, dryRun) <==>
            !(WantedBy(q, MainContainer(q.template).value, dryRun) <= Resources(n.(artifacts := n.artifacts - missing)))
  {
    var main := MainContainer(q.template).value;
    StepFindsAll(q.template, stepType, n, main, q.key, dryRun);
    KnownLacking(n, missing, WantedBy(q, main, dryRun));
  }

  /** A run that knows all the validator does except some artifacts fails exactly when a step wants
      one of those, and otherwise still lacks exactly those. */
  lemma {:induction false} StepsLacking(qs: seq<BuildRequest>, steps: seq<StepSpec>, stepType: StepType,
                                        n: NameSets, missing: set<string>, dryRun: bool)
    requires BuildsOf(qs, steps) && AddSteps(steps, stepType, n).Some? && Unhindered(qs) && missing <= n.artifacts
    ensures var n' := AddSteps(steps, stepType, n).value;
      && missing <= n'.artifacts
      && BuildsOutcome(qs, n.(artifacts := n.artifacts - missing), dryRun)
         == if SomeWantsMissing(qs, missing, dryRun) then NotFound
            else Through(n'.(artifacts := n'.artifacts - missing))
    decreases |steps|
  {
    var r := n.(artifacts := n.artifacts - missing);
    if steps != [] {
      var t := qs[0].template;
      StepAdded(steps[0], stepType, n);
      StepLacking(qs[0], stepType, n, missing, dryRun);
      WantsTail(qs, missing, dryRun);
      assert Unhindered(qs[1..]) && BuildsOf(qs[1..], steps[1..]);
      StepsLacking(qs[1..], steps[1..], stepType, WithArtifacts(n, t), missing, dryRun);
      assert WithArtifacts(r, t) == WithArtifacts(n, t).(artifacts := WithArtifacts(n, t).artifacts - missing);
    }
  }

  lemma KnownLacking(n: NameSets, missing: set<string>, wanted: set<Resource>)
    requires wanted <= Resources(n)
    ensures wanted <= Resources(n.(artifacts := n.artifacts - missing)) <==>
            !exists name :: name in missing && Artifact(name) in wanted
  {
    var r := n.(artifacts := n.artifacts - missing);
    if exists name :: name in missing && Artifact(name) in wanted {
      var name :| name in missing && Artifact(name) in wanted;
      assert Artifact(name) !in Resources(r);
    } else {
      forall x | x in wanted ensures x in Resources(r) {
        assert x.Artifact? ==> x.name !in missing;
      }
    }
  }

  lemma DynamicLacking(spec: JobSpec, qs: seq<BuildRequest>, n: NameSets, dryRun: bool)
    requires BuildsOf(qs, DynamicSteps(spec)) && DynamicNames(spec, n).Some? && Unhindered(qs)
    ensures BuildsOutcome(qs, n, dryRun) == Through(DynamicNames(spec, n).value)
  {
    if qs != [] {
      var s := spec.strategy.value.dynamic.value;
      var t := qs[0].template;
      StepAdded(s, MainStepType, n);
      StepFindsAll(t, MainStepType, n, MainContainer(t).value, qs[0].key, dryRun);
      assert qs[1..] == [];
    }
  }

  /** Without a build of the main step, which a key task that prints no key gives under a pod limit,
      an otherwise unhindered run of an accepted job fails a lookup exactly when a poststep mounts an
      artifact of the main step or an export names one. */
  lemma NoMainBuildExactly(spec: JobSpec, run: JobRun, dryRun: bool)
    requires Accepted(spec) && RunOf(run, spec) && run.main == [] && Unhindered(AllBuilds(run))
    ensures var missing := ArtifactNames(spec.mainStep.template.artifacts);
      JobOutcome(spec, run, SetUp(spec), dryRun) == NotFound <==>
      SomeWantsMissing(run.post, missing, dryRun) || exists i :: 0 <= i < |spec.exports| && spec.exports[i].name in missing
  {
    var n2, n3, n4 := UntilMain(spec, run, dryRun);
    var missing := ArtifactNames(spec.mainStep.template.artifacts);
    var n4' := n4.(artifacts := n4.artifacts - missing);
    StepAdded(spec.mainStep, MainStepType, n2);
    assert n3.(artifacts := n3.artifacts - missing) == n2;
    StepsLacking(run.post, spec.postSteps, PostStepType, n3, missing, dryRun);
    if ExportsFound(spec.exports, n4') {
      forall i | 0 <= i < |spec.exports| ensures spec.exports[i].name !in missing {
        assert spec.exports[i].name in n4'.artifacts;
      }
    }
  }

  /** Without a build of the main step the poststeps begin with what the validator knew before it. */
  lemma UntilMain(spec: JobSpec, run: JobRun, dryRun: bool) returns (n2: NameSets, n3: NameSets, n4: NameSets)
    requires Accepted(spec) && RunOf(run, spec) && run.main == [] && Unhindered(AllBuilds(run))
    ensures Unhindered(run.post)
    ensures BuildsOutcome(AllBuilds(run), SetUp(spec), dryRun) == BuildsOutcome(run.post, n2, dryRun)
    ensures AddStep(spec.mainStep, MainStepType, n2) == Some(n3)
    ensures AddSteps(spec.postSteps, PostStepType, n3) == Some(n4)
    ensures ExportsOk(spec.exports, n4)
  {
    var n1;
    n1, n2, n3, n4 := AcceptedParts(spec);
    var rest := run.dynamic + (run.main + run.post);
    assert run.main + run.post == run.post;
    UnhinderedParts(run.pre, rest);
    UnhinderedParts(run.dynamic, run.post);
    OutcomeConcat(run.pre, rest, SetUp(spec), dryRun);
    StepsPass(run.pre, spec.preSteps, PreStepType, SetUp(spec), dryRun);
    OutcomeConcat(run.dynamic, run.post, n1, dryRun);
    DynamicLacking(spec, run.dynamic, n1, dryRun);
  }

  /** An unhindered run that knows what the validator does passes the steps and still does. */
  lemma StepsPass(qs: seq<BuildRequest>, steps: seq<StepSpec>, stepType: StepType, n: NameSets, dryRun: bool)
    requires BuildsOf(qs, steps) && AddSteps(steps, stepType, n).Some? && Unhindered(qs)
    ensures BuildsOutcome(qs, n, dryRun) == Through(AddSteps(steps, stepType, n).value)
  {
    var n' := AddSteps(steps, stepType, n).value;
    StepsLacking(qs, steps, stepType, n, {}, dryRun);
    assert n.(artifacts := n.artifacts - {}) == n && n'.(artifacts := n'.artifacts - {}) == n';
  }

  lemma UnhinderedParts(a: seq<BuildRequest>, b: seq<BuildRequest>)
    requires Unhindered(a + b)
    ensures Unhindered(a) && Unhindered(b)
  {
    forall i | 0 <= i < |a| ensures a[i] == (a + b)[i] {
    }
    forall i | 0 <= i < |b| ensures b[i] == (a + b)[|a| + i] {
    }
  }

  /*** After the builds. ***/

  /** What a build found stays known, and so do the artifacts it registered: building its job again
      for a retry, mounting its artifacts and copying the artifacts of its subtasks find their names. */
  lemma {:induction false} BuildsStayKnown(qs: seq<BuildRequest>, n: NameSets, dryRun: bool, i: nat)
    requires BuildsOutcome(qs, n, dryRun).Through? && i < |qs|
    ensures var n' := BuildsOutcome(qs, n, dryRun).names;
      && Within(n, n')
      && MainContainer(qs[i].template).Ok?
      && WantedBy(qs[i], MainContainer(qs[i].template).value, dryRun) <= Resources(n')
      && ArtifactNames(Created(qs[i])) <= n'.artifacts
    decreases |qs|
  {
    var next := Registers(n, qs[0]);
    var n' := BuildsOutcome(qs, n, dryRun).names;
    NamesGrow(qs[1..], next, dryRun);
    ResourcesGrow(n, n');
    if i > 0 {
      BuildsStayKnown(qs[1..], next, dryRun, i - 1);
    }
  }

  lemma {:induction false} NamesGrow(qs: seq<BuildRequest>, n: NameSets, dryRun: bool)
    requires BuildsOutcome(qs, n, dryRun).Through?
    ensures Within(n, BuildsOutcome(qs, n, dryRun).names)
    decreases |qs|
  {
    if qs != [] {
      NamesGrow(qs[1..], Registers(n, qs[0]), dryRun);
    }
  }

  /** Log and report are mounted in poststeps only, hence after they were written. */
  lemma LogAndReportLate(t: Template, stepType: StepType, n: NameSets, main: Container, key: Option<KeySpec>,
                         sources: Sources, dryRun: bool)
    requires VolumesOk(t.volumes, stepType, n) && stepType != PostStepType
    ensures FileCopies(BuildOf(t, main, key), sources, dryRun) == []
  {
    var cs := PodContainers(t.containers, main, key);
    NoLogGroup(t.init, t.volumes, stepType, n);
    NoLogGroup(cs, t.volumes, stepType, n);
    NoLogGroup([t.finalizer], t.volumes, stepType, n);
  }

  lemma NoLogGroup(cs: seq<Container>, volumes: seq<Volume>, stepType: StepType, n: NameSets)
    requires VolumesOk(volumes, stepType, n) && stepType != PostStepType
    ensures !UsesLog(GroupOf(cs, volumes)) && !UsesReport(GroupOf(cs, volumes))
  {
    var g := GroupOf(cs, volumes);
    forall c | c in g ensures g[c].logOrg == [] && g[c].reportOrg == [] {
      var i := GroupEntry(cs, volumes, c);
      NoLogPlan(cs[i].mounts, volumes, stepType, n);
    }
  }

  lemma {:induction false} NoLogPlan(mounts: seq<Mount>, volumes: seq<Volume>, stepType: StepType, n: NameSets)
    requires VolumesOk(volumes, stepType, n) && stepType != PostStepType
    ensures Planned(mounts, volumes).logOrg == [] && Planned(mounts, volumes).reportOrg == []
  {
    if mounts != [] {
      var last := mounts[|mounts| - 1];
      NoLogPlan(mounts[..|mounts| - 1], volumes, stepType, n);
      LookupDeclared(volumes, last.name);
      if Declared(volumes, last.name) {
        var i :| 0 <= i < |volumes| && volumes[i] == Lookup(volumes, last.name);
        assert SourceOk(volumes[i].source, stepType, n);
      }
    }
  }

  /*** The builds as the runner makes them. ***/

  /** nameToLocalDirs after some builds. */
  function DirsAfter(m: map<string, string>, qs: seq<BuildRequest>): map<string, string>
    decreases |qs|
  {
    if qs == [] then m
    else
      var q := qs[|qs| - 1];
      Registered(DirsAfter(m, qs[..|qs| - 1]), NameList(Created(q)), q.dirs)
  }

  /** nameToLocalFiles after some builds. */
  function FilesAfter(m: map<string, string>, qs: seq<BuildRequest>): map<string, string>
    decreases |qs|
  {
    if qs == [] then m
    else
      var q := qs[|qs| - 1];
      Registered(FilesAfter(m, qs[..|qs| - 1]), NameList(Created(q)), FileList(Created(q)))
  }

  lemma OutcomeNext(qs: seq<BuildRequest>, i: nat, n: NameSets, dryRun: bool)
    requires i < |qs|
    ensures var p := BuildsOutcome([qs[i]], n, dryRun);
      BuildsOutcome(qs[i..], n, dryRun) == if p.Through? then BuildsOutcome(qs[i + 1..], p.names, dryRun) else p
  {
    assert qs[i..] == [qs[i]] + qs[i + 1..];
    OutcomeConcat([qs[i]], qs[i + 1..], n, dryRun);
  }

  lemma AfterNext(dirs: map<string, string>, files: map<string, string>, qs: seq<BuildRequest>, i: nat)
    requires i < |qs|
    ensures DirsAfter(dirs, qs[..i + 1]) == DirsAfter(DirsAfter(dirs, qs[..i]), [qs[i]])
    ensures FilesAfter(files, qs[..i + 1]) == FilesAfter(FilesAfter(files, qs[..i]), [qs[i]])
  {
    assert qs[..i + 1][..i] == qs[..i];
    assert [qs[i]][..0] == [];
  }

  /** After several builds of one step each artifact name has the directory that the last build
      registered for it. */
  lemma LastBuildRegisters(dirs: map<string, string>, files: map<string, string>, qs: seq<BuildRequest>, t: Template, i: nat)
    requires qs != [] && AllCreated(qs) && (forall k :: 0 <= k < |qs| ==> qs[k].template == t)
    requires LastAt(NameList(t.artifacts), i)
    ensures var name := t.artifacts[i].name; var last := qs[|qs| - 1];
      && name in DirsAfter(dirs, qs) && DirsAfter(dirs, qs)[name] == last.dirs[i]
      && name in FilesAfter(files, qs) && FilesAfter(files, qs)[name] == Base(t.artifacts[i].path)
  {
    var last := qs[|qs| - 1];
    RegisteredValue(DirsAfter(dirs, qs[..|qs| - 1]), NameList(t.artifacts), last.dirs, t.artifacts[i].name);
    RegisteredValue(FilesAfter(files, qs[..|qs| - 1]), NameList(t.artifacts), FileList(t.artifacts), t.artifacts[i].name);
  }

  class TaskBuilder {
    const tokens: set<string>
    const repos: set<string>
    const artifactMgr: ArtifactManager

    function Names(): NameSets
      reads artifactMgr
    {
      NameSets(tokens, repos, artifactMgr.localDirs.Keys)
    }

    constructor (tokens: set<string>, repos: set<string>)
      ensures fresh(artifactMgr) && artifactMgr.Valid() && Names() == NameSets(tokens, repos, {})
    {
      this.tokens, this.repos := tokens, repos;
      artifactMgr := new ArtifactManager();
    }

    /** BuildWithKey: the error of AddArtifacts is dropped, so that missing temporary directories
        leave artifacts out. */
    method BuildWithKey(q: BuildRequest, dryRun: bool) returns (p: Progress)
      requires artifactMgr.Valid()
      modifies artifactMgr
      ensures artifactMgr.Valid()
      ensures p == BuildsOutcome([q], old(Names()), dryRun)
      ensures p.Through? ==> p.names == Names()
      ensures p.Through? ==> artifactMgr.localDirs == DirsAfter(old(artifactMgr.localDirs), [q])
      ensures p.Through? ==> artifactMgr.localFiles == FilesAfter(old(artifactMgr.localFiles), [q])
    {
      var main := MainContainer(q.template);
      if main.Err? {
        return Stopped;
      }
      if !(WantedBy(q, main.value, dryRun) <= Resources(Names())) {
        return NotFound;
      }
      var ok := artifactMgr.AddArtifacts(q.template.artifacts, q.dirs);
      assert q.template.artifacts[..|q.template.artifacts|] == q.template.artifacts;
      RegisteredKeys(old(artifactMgr.localDirs), Created(q), q.dirs);
      p := if q.stops then Stopped else Through(Names());
    }

    method RunBuilds(qs: seq<BuildRequest>, dryRun: bool) returns (p: Progress)
      requires artifactMgr.Valid()
      modifies artifactMgr
      ensures artifactMgr.Valid()
      ensures p == BuildsOutcome(qs, old(Names()), dryRun)
      ensures p.Through? ==> p.names == Names()
      ensures p.Through? ==> artifactMgr.localDirs == DirsAfter(old(artifactMgr.localDirs), qs)
      ensures p.Through? ==> artifactMgr.localFiles == FilesAfter(old(artifactMgr.localFiles), qs)
    {
      ghost var names, dirs, files := Names(), artifactMgr.localDirs, artifactMgr.localFiles;
      for i := 0 to |qs|
        invariant artifactMgr.Valid()
        invariant BuildsOutcome(qs, names, dryRun) == BuildsOutcome(qs[i..], Names(), dryRun)
        invariant artifactMgr.localDirs == DirsAfter(dirs, qs[..i])
        invariant artifactMgr.localFiles == FilesAfter(files, qs[..i])
      {
        OutcomeNext(qs, i, Names(), dryRun);
        AfterNext(dirs, files, qs, i);
        p := BuildWithKey(qs[i], dryRun);
        if !p.Through? {
          return;
        }
      }
      assert qs[..|qs|] == qs;
      p := Through(Names());
    }

    method ExportArtifacts(exports: seq<ExportSpec>) returns (ok: bool)
      requires artifactMgr.Valid()
      ensures ok <==> ExportsFound(exports, Names())
    {
      for i := 0 to |exports|
        invariant forall j :: 0 <= j < i ==> exports[j].name in artifactMgr.localDirs
      {
        var src := artifactMgr.ExportPathByName(exports[i].name);
        if src.None? {
          return false;
        }
      }
      ok := true;
    }
  }
}
