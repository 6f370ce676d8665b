/** The job validator (api/v1/validator.go): what it accepts as a function of three name sets, and
    the validator object whose methods fill those sets.

    `fieldsOk` and `wellFormed` stand for the checks that look at one field at a time: commands,
    images, agents, artifact paths, token sources, log level. */
module Validation {
  import opened Wrappers
  import opened PodSpecs
  import opened Scheduler

  datatype StepType = PreStepType | MainStepType | PostStepType

  datatype TokenSpec = TokenSpec(name: string, wellFormed: bool)

  datatype RepoSpec = RepoSpec(name: string, clonedPath: string, url: string, token: string, branch: string, rev: string)

  datatype StepSpec = StepSpec(name: string, template: Template, fieldsOk: bool)

  datatype StrategySpec = StrategySpec(env: string, fixed: seq<string>, dynamic: Option<StepSpec>, scheduler: SchedulerParams)

  datatype ExportSpec = ExportSpec(name: string, path: string)

  datatype JobSpec = JobSpec(
    logOk: bool, tokens: seq<TokenSpec>, repos: seq<RepoSpec>, preSteps: seq<StepSpec>,
    strategy: Option<StrategySpec>, mainStep: StepSpec, postSteps: seq<StepSpec>, exports: seq<ExportSpec>)

  /** The three name maps of the validator. */
  datatype NameSets = NameSets(tokens: set<string>, repos: set<string>, artifacts: set<string>)

  /*** What is accepted. ***/

  function AddTokens(specs: seq<TokenSpec>, n: NameSets): Option<NameSets>
    decreases |specs|
  {
    if specs == [] then Some(n)
    else if specs[0].name == "" || !specs[0].wellFormed || specs[0].name in n.tokens then None
    else AddTokens(specs[1..], n.(tokens := n.tokens + {specs[0].name}))
  }

  /** ValidateRepository: a repository with a cloned path is not looked at any further. */
  predicate RepoOk(r: RepoSpec, tokens: set<string>) {
    || r.clonedPath != ""
    || (r.url != "" && (r.token != "" ==> r.token in tokens) && (r.branch == "" || r.rev == ""))
  }

  function AddRepos(specs: seq<RepoSpec>, n: NameSets): Option<NameSets>
    decreases |specs|
  {
    if specs == [] then Some(n)
    else if specs[0].name == "" || !RepoOk(specs[0], n.tokens) || specs[0].name in n.repos then None
    else AddRepos(specs[1..], n.(repos := n.repos + {specs[0].name}))
  }

  predicate SourceOk(s: VolumeSource, stepType: StepType, n: NameSets) {
    match KindOf(s)
    case ResourceKind(Repo(name)) => name != "" && name in n.repos
    case ResourceKind(Artifact(name)) => name != "" && name in n.artifacts
    case ResourceKind(Token(name)) => name != "" && name in n.tokens
    case LogKind => stepType == PostStepType
    case ReportKind => stepType == PostStepType && s.report == Some("json")
    case PlainKind(_) => true
  }

  predicate VolumesOk(volumes: seq<Volume>, stepType: StepType, n: NameSets) {
    forall i :: 0 <= i < |volumes| ==> volumes[i].name != "" && SourceOk(volumes[i].source, stepType, n)
  }

  predicate HasContainer(cs: seq<Container>, name: string) {
    exists i :: 0 <= i < |cs| && cs[i].name == name
  }

  function AddArtifacts(specs: seq<ArtifactSpec>, cs: seq<Container>, n: NameSets): Option<NameSets>
    decreases |specs|
  {
    if specs == [] then Some(n)
    else if specs[0].name == "" || specs[0].container == "" || specs[0].path == []
            || !HasContainer(cs, specs[0].container) || specs[0].name in n.artifacts then None
    else AddArtifacts(specs[1..], cs, n.(artifacts := n.artifacts + {specs[0].name}))
  }

  /** ValidateTestJobTemplateSpec: a step's volumes are checked before its own artifacts are known. */
  function AddStep(s: StepSpec, stepType: StepType, n: NameSets): Option<NameSets> {
    var t := s.template;
    if (|t.containers| > 1 && t.main == "") || t.containers == [] || !s.fieldsOk then None
    else if !VolumesOk(t.volumes, stepType, n) then None
    else AddArtifacts(t.artifacts, t.containers, n)
  }

  function AddSteps(steps: seq<StepSpec>, stepType: StepType, n: NameSets): Option<NameSets>
    decreases |steps|
  {
    if steps == [] then Some(n)
    else if steps[0].name == "" then None
    else
      match AddStep(steps[0], stepType, n)
      case None => None
      case Some(n') => AddSteps(steps[1..], stepType, n')
  }

  predicate SchedulerOk(p: SchedulerParams) {
    && (p.maxPodNum != 0 || p.maxContainersPerPod != 0)
    && (p.maxPodNum == 0 || p.maxContainersPerPod == 0)
    && p.maxPodNum >= 0 && p.maxContainersPerPod >= 0 && p.maxConcurrentNumPerPod > 0
  }

  function AddStrategy(strategy: Option<StrategySpec>, n: NameSets): Option<NameSets> {
    match strategy
    case None => Some(n)
    case Some(s) =>
      if s.env == "" || (s.fixed == [] && s.dynamic.None?) || (s.fixed != [] && s.dynamic.Some?) then None
      else
        match (if s.dynamic.Some? then AddStep(s.dynamic.value, MainStepType, n) else Some(n))
        case None => None
        case Some(n') => if SchedulerOk(s.scheduler) then Some(n') else None
  }

  predicate ExportsOk(exports: seq<ExportSpec>, n: NameSets) {
    forall i :: 0 <= i < |exports| ==> exports[i].name != "" && exports[i].name in n.artifacts && exports[i].path != ""
  }

  function AddJob(spec: JobSpec, n: NameSets): Option<NameSets> {
    if !spec.logOk then None
    else
      match AddTokens(spec.tokens, n)
      case None => None
      case Some(n1) =>
        match AddRepos(spec.repos, n1)
        case None => None
        case Some(n2) => AddAllSteps(spec, n2)
  }

  function AddMain(spec: JobSpec, n: NameSets): Option<NameSets> {
    match AddStrategy(spec.strategy, n)
    case None => None
    case Some(n') => AddStep(spec.mainStep, MainStepType, n')
  }

  function AddAllSteps(spec: JobSpec, n: NameSets): Option<NameSets> {
    match AddSteps(spec.preSteps, PreStepType, n)
    case None => None
    case Some(n1) =>
      match AddMain(spec, n1)
      case None => None
      case Some(n2) =>
        match AddSteps(spec.postSteps, PostStepType, n2)
        case None => None
        case Some(n3) => if ExportsOk(spec.exports, n3) then Some(n3) else None
  }

  const NoNames := NameSets({}, {}, {})

  predicate Accepted(spec: JobSpec) {
    AddJob(spec, NoNames).Some?
  }

  /*** The validator object. ***/

  class Validator {
    var tokenNames: set<string>
    var repoNames: set<string>
    var artifactNames: set<string>

    function Names(): NameSets
      reads this
    {
      NameSets(tokenNames, repoNames, artifactNames)
    }

    constructor ()
      ensures Names() == NoNames
    {
      tokenNames, repoNames, artifactNames := {}, {}, {};
    }

    method ValidateVolumes(volumes: seq<Volume>, stepType: StepType) returns (ok: bool)
      ensures ok <==> VolumesOk(volumes, stepType, Names())
    {
      for i := 0 to |volumes|
        invariant VolumesOk(volumes[..i], stepType, Names())
      {
        assert volumes[..i + 1] == volumes[..i] + [volumes[i]];
        if volumes[i].name == "" || !SourceOk(volumes[i].source, stepType, Names()) {
          return false;
        }
      }
      assert volumes[..|volumes|] == volumes;
      ok := true;
    }

    method FindContainer(cs: seq<Container>, name: string) returns (found: bool)
      ensures found <==> HasContainer(cs, name)
    {
      for i := 0 to |cs|
        invariant forall j :: 0 <= j < i ==> cs[j].name != name
      {
        if cs[i].name == name {
          return true;
        }
      }
      found := false;
    }

    method ValidateArtifacts(specs: seq<ArtifactSpec>, cs: seq<Container>) returns (ok: bool)
      modifies this
      ensures ok <==> AddArtifacts(specs, cs, old(Names())).Some?
      ensures ok ==> Names() == AddArtifacts(specs, cs, old(Names())).value
    {
      for i := 0 to |specs|
        invariant AddArtifacts(specs, cs, old(Names())) == AddArtifacts(specs[i..], cs, Names())
      {
        var a := specs[i];
        assert specs[i..][0] == a && specs[i..][1..] == specs[i + 1..];
        if a.name == "" || a.container == "" || a.path == [] {
          return false;
        }
        var found := FindContainer(cs, a.container);
        if !found || a.name in artifactNames {
          return false;
        }
        artifactNames := artifactNames + {a.name};
      }
      ok := true;
    }

    method ValidateTestJobTemplateSpec(s: StepSpec, stepType: StepType) returns (ok: bool)
      modifies this
      ensures ok <==> AddStep(s, stepType, old(Names())).Some?
      ensures ok ==> Names() == AddStep(s, stepType, old(Names())).value
    {
      var t := s.template;
      if (|t.containers| > 1 && t.main == "") || |t.containers| == 0 || !s.fieldsOk {
        return false;
      }
      ok := ValidateVolumes(t.volumes, stepType);
      if ok {
        ok := ValidateArtifacts(t.artifacts, t.containers);
      }
    }

    method ValidateSteps(steps: seq<StepSpec>, stepType: StepType) returns (ok: bool)
      modifies this
      ensures ok <==> AddSteps(steps, stepType, old(Names())).Some?
      ensures ok ==> Names() == AddSteps(steps, stepType, old(Names())).value
    {
      for i := 0 to |steps|
        invariant AddSteps(steps, stepType, old(Names())) == AddSteps(steps[i..], stepType, Names())
      {
        assert steps[i..][0] == steps[i] && steps[i..][1..] == steps[i + 1..];
        if steps[i].name == "" {
          return false;
        }
        ok := ValidateTestJobTemplateSpec(steps[i], stepType);
        if !ok {
          return;
        }
      }
      ok := true;
    }

    method ValidateStrategy(strategy: Option<StrategySpec>) returns (ok: bool)
      modifies this
      ensures ok <==> AddStrategy(strategy, old(Names())).Some?
      ensures ok ==> Names() == AddStrategy(strategy, old(Names())).value
    {
      if strategy.None? {
        return true;
      }
      var s := strategy.value;
      if s.env == "" || (|s.fixed| == 0 && s.dynamic.None?) || (|s.fixed| > 0 && s.dynamic.Some?) {
        return false;
      }
      if s.dynamic.Some? {
        ok := ValidateTestJobTemplateSpec(s.dynamic.value, MainStepType);
        if !ok {
          return;
        }
      }
      ok := SchedulerOk(s.scheduler);
    }

    method ValidateTokens(specs: seq<TokenSpec>) returns (ok: bool)
      modifies this
      ensures ok <==> AddTokens(specs, old(Names())).Some?
      ensures ok ==> Names() == AddTokens(specs, old(Names())).value
    {
      for i := 0 to |specs|
        invariant AddTokens(specs, old(Names())) == AddTokens(specs[i..], Names())
      {
        assert specs[i..][0] == specs[i] && specs[i..][1..] == specs[i + 1..];
        if specs[i].name == "" || !specs[i].wellFormed || specs[i].name in tokenNames {
          return false;
        }
        tokenNames := tokenNames + {specs[i].name};
      }
      ok := true;
    }

    method ValidateRepos(specs: seq<RepoSpec>) returns (ok: bool)
      modifies this
      ensures ok <==> AddRepos(specs, old(Names())).Some?
      ensures ok ==> Names() == AddRepos(specs, old(Names())).value
    {
      for i := 0 to |specs|
        invariant AddRepos(specs, old(Names())) == AddRepos(specs[i..], Names())
      {
        assert specs[i..][0] == specs[i] && specs[i..][1..] == specs[i + 1..];
        if specs[i].name == "" || !RepoOk(specs[i], tokenNames) || specs[i].name in repoNames {
          return false;
        }
        repoNames := repoNames + {specs[i].name};
      }
      ok := true;
    }

    method ValidateExports(exports: seq<ExportSpec>) returns (ok: bool)
      ensures ok <==> ExportsOk(exports, Names())
    {
      for i := 0 to |exports|
        invariant ExportsOk(exports[..i], Names())
      {
        assert exports[..i + 1] == exports[..i] + [exports[i]];
        if exports[i].name == "" || exports[i].name !in artifactNames || exports[i].path == "" {
          return false;
        }
      }
      assert exports[..|exports|] == exports;
      ok := true;
    }

    method ValidateTestJobSpec(spec: JobSpec) returns (ok: bool)
      modifies this
      ensures ok <==> AddJob(spec, old(Names())).Some?
      ensures ok ==> Names() == AddJob(spec, old(Names())).value
    {
      if !spec.logOk {
        return false;
      }
      ok := ValidateTokens(spec.tokens);
      if !ok { return; }
      ok := ValidateRepos(spec.repos);
      if !ok { return; }
      ok := ValidateSteps(spec.preSteps, PreStepType);
      if !ok { return; }
      ok := ValidateStrategy(spec.strategy);
      if !ok { return; }
      ok := ValidateTestJobTemplateSpec(spec.mainStep, MainStepType);
      if !ok { return; }
      ok := ValidateSteps(spec.postSteps, PostStepType);
      if !ok { return; }
      ok := ValidateExports(spec.exports);
    }
  }

  /*** The names an accepted job declares. ***/

  function TokenNames(specs: seq<TokenSpec>): set<string> {
    set i | 0 <= i < |specs| :: specs[i].name
  }

  function RepoNames(specs: seq<RepoSpec>): set<string> {
    set i | 0 <= i < |specs| :: specs[i].name
  }

  function ArtifactNames(specs: seq<ArtifactSpec>): set<string> {
    set i | 0 <= i < |specs| :: specs[i].name
  }

  lemma NamesCons<T>(specs: seq<T>, name: T -> string)
    requires specs != []
    ensures (set i | 0 <= i < |specs| :: name(specs[i])) == (set i | 0 <= i < |specs[1..]| :: name(specs[1..][i])) + {name(specs[0])}
  {
    var all, rest := set i | 0 <= i < |specs| :: name(specs[i]), set i | 0 <= i < |specs[1..]| :: name(specs[1..][i]);
    forall x | x in all ensures x in rest + {name(specs[0])} {
      var i :| 0 <= i < |specs| && name(specs[i]) == x;
      assert i > 0 ==> specs[1..][i - 1] == specs[i];
    }
    forall x | x in rest ensures x in all {
      var i :| 0 <= i < |specs[1..]| && name(specs[1..][i]) == x;
      assert specs[i + 1] == specs[1..][i];
    }
  }

  lemma {:induction false} TokensAdded(specs: seq<TokenSpec>, n: NameSets)
    requires AddTokens(specs, n).Some?
    ensures AddTokens(specs, n).value == n.(tokens := n.tokens + TokenNames(specs))
    decreases |specs|
  {
    if specs != [] {
      TokensAdded(specs[1..], n.(tokens := n.tokens + {specs[0].name}));
      NamesCons(specs, (s: TokenSpec) => s.name);
    }
  }

  /** The repositories are added and each passed its check against the declared tokens. */
  lemma {:induction false} ReposAdded(specs: seq<RepoSpec>, n: NameSets)
    requires AddRepos(specs, n).Some?
    ensures AddRepos(specs, n).value == n.(repos := n.repos + RepoNames(specs))
    ensures forall i :: 0 <= i < |specs| ==> RepoOk(specs[i], n.tokens)
    decreases |specs|
  {
    if specs != [] {
      ReposAdded(specs[1..], n.(repos := n.repos + {specs[0].name}));
      NamesCons(specs, (s: RepoSpec) => s.name);
      assert forall i :: 1 <= i < |specs| ==> specs[i] == specs[1..][i - 1];
    }
  }

  /** The artifacts of a step are new names. */
  lemma {:induction false} ArtifactsAdded(specs: seq<ArtifactSpec>, cs: seq<Container>, n: NameSets)
    requires AddArtifacts(specs, cs, n).Some?
    ensures AddArtifacts(specs, cs, n).value == n.(artifacts := n.artifacts + ArtifactNames(specs))
    ensures n.artifacts !! ArtifactNames(specs)
    decreases |specs|
  {
    if specs != [] {
      ArtifactsAdded(specs[1..], cs, n.(artifacts := n.artifacts + {specs[0].name}));
      NamesCons(specs, (s: ArtifactSpec) => s.name);
    }
  }
}
