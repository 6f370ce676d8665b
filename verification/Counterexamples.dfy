/** Jobs that the validator accepts and on which a property fails; the conditions under which the
    properties hold are stated beside them in the modules imported here. */
module Counterexamples {
  import opened Wrappers
  import opened Scheduler
  import opened PodSpecs
  import opened Builder
  import opened PreInit
  import opened PreInitCopies
  import opened Validation
  import opened Lookups
  import ArtifactCopies
  import opened ArtifactPaths
  import opened Pipeline

  const Idle: Container := Container("", "", [], [])

  function RepoVolume(name: string, repo: string): Volume {
    Volume(name, VolumeSource(Some(repo), None, None, false, None, ""))
  }

  function MainStepOf(t: Template): StepSpec {
    StepSpec("", t, true)
  }

  /** A strategy with fixed keys, one container per pod. */
  function FixedKeys(env: string, keys: seq<string>): StrategySpec {
    StrategySpec(env, keys, None, SchedulerParams(0, 1, 1))
  }

  /** A job that has a main step and otherwise at most a strategy and one repository. */
  function PlainJob(repos: seq<RepoSpec>, strategy: Option<StrategySpec>, t: Template): JobSpec {
    JobSpec(true, [], repos, [], strategy, MainStepOf(t), [], [])
  }

  const SomeRepo: RepoSpec := RepoSpec("repo", "", "https://example.com/repo", "", "", "")

  const RepoNamesOnly: NameSets := NameSets({}, {"repo"}, {})

  lemma OneRepo()
    ensures AddRepos([SomeRepo], NoNames) == Some(RepoNamesOnly)
  {
    assert [SomeRepo][1..] == [] && AddRepos([], RepoNamesOnly) == Some(RepoNamesOnly);
    assert NoNames.repos + {"repo"} == {"repo"};
  }

  lemma PlainJobAccepted(repos: seq<RepoSpec>, strategy: Option<StrategySpec>, t: Template, n: NameSets)
    requires AddRepos(repos, NoNames) == Some(n) && AddStrategy(strategy, n) == Some(n)
    requires AddStep(MainStepOf(t), MainStepType, n).Some?
    ensures Accepted(PlainJob(repos, strategy, t))
  {
    var spec := PlainJob(repos, strategy, t);
    assert AddMain(spec, n).Some?;
    assert AddAllSteps(spec, n).Some?;
  }

  lemma LookupSingle(v: Volume)
    ensures Lookup([v], v.name) == v
  {
    assert [v][|[v]| - 1] == v;
  }

  lemma LookupPair(v: Volume, w: Volume)
    requires v.name != w.name
    ensures Lookup([v, w], v.name) == v && Lookup([v, w], w.name) == w
  {
    assert [v, w][..1] == [v];
    LookupSingle(v);
  }

  /*** Pod volumes and copies. ***/

  /** Only the finalizer mounts the repository, and the pod has no volume for its preinit mount. */
  function FinalizerOnly(path: Path): Template {
    var volumes := [RepoVolume("src", "repo")];
    Template("", [], [Container("test", "image", [], [])], Container("finalizer", "image", [], [Mount("src", path)]), volumes, [])
  }

  lemma FinalizerVolumeMissing(path: Path, vi: map<string, PodVolume>, vm: map<string, PodVolume>,
                               mi: map<string, Mount>, mm: map<string, Mount>, mf: map<string, Mount>)
    requires var t := FinalizerOnly(path); var b := BuildOf(t, t.containers[0], None);
      && Merges(vi, VolumeMaps(b.init)) && Merges(vm, VolumeMaps(b.main))
      && Merges(mi, MountMaps(b.init)) && Merges(mm, MountMaps(b.main)) && Merges(mf, MountMaps(b.finalizers))
    ensures Accepted(PlainJob([SomeRepo], None, FinalizerOnly(path)))
    ensures !forall name :: name in mi + mm + mf ==> name in vi + vm
  {
    var t := FinalizerOnly(path);
    OneRepo();
    assert VolumesOk(t.volumes, MainStepType, RepoNamesOnly);
    PlainJobAccepted([SomeRepo], None, t, RepoNamesOnly);
    LookupSingle(t.volumes[0]);
    assert t.finalizer.mounts[0].name == "src";
    assert MountsTestVolume(t.finalizer.mounts, t.volumes, "src");
    assert PodContainers(t.containers, t.containers[0], None) == t.containers;
    assert !SomeMountsVolume(t.containers, t.volumes, "src");
    PreInitMountsNameVolumes(t, t.containers[0], None, vi, vm, mi, mm, mf);
  }

  /** Two volumes of one repository, mounted by two containers. */
  function TwoVolumes(path: Path): Template {
    var volumes := [RepoVolume("left", "repo"), RepoVolume("right", "repo")];
    var cs := [Container("test", "image", [], [Mount("left", path)]), Container("side", "image", [], [Mount("right", path)])];
    Template("test", [], cs, Idle, volumes, [])
  }

  /** Whatever path is picked, one of the containers does not find its archive. */
  lemma TwoVolumesUncovered(path: Path, sources: Sources, w: Walk)
    requires FileNames(sources)
    requires var t := TwoVolumes(path); var b := BuildOf(t, t.containers[0], None);
      Wanted(b, false) <= sources.files.Keys && WalkOf(b, Wanted(b, false), w)
    ensures Accepted(PlainJob([SomeRepo], None, TwoVolumes(path)))
    ensures var t := TwoVolumes(path); var b := BuildOf(t, t.containers[0], None);
      !Covered(b, sources, AllCopies(b, sources, w))
  {
    var t := TwoVolumes(path);
    var main := t.containers[0];
    OneRepo();
    assert VolumesOk(t.volumes, MainStepType, RepoNamesOnly);
    PlainJobAccepted([SomeRepo], None, t, RepoNamesOnly);
    TwoVolumesApart(path);
    PreInitCoverage(t, main, None, sources, w);
  }

  lemma TwoVolumesApart(path: Path)
    ensures var t := TwoVolumes(path);
      NamedVolumes(t.volumes) && !StagedAlike(BuildOf(t, t.containers[0], None))
  {
    var t := TwoVolumes(path);
    var main := t.containers[0];
    var cs := AllContainers(t, main, None);
    LookupPair(t.volumes[0], t.volumes[1]);
    assert cs == t.containers + [t.finalizer];
    assert cs[0] == t.containers[0] && cs[1] == t.containers[1];
    assert LastMount(cs, t.volumes, 0, 0, Repo("repo"));
    assert LastMount(cs, t.volumes, 1, 0, Repo("repo"));
    assert VolumeNameAt(cs, t.volumes, 0, 0) != VolumeNameAt(cs, t.volumes, 1, 0);
    StagedAlikeExactly(t, main, None);
  }

  /*** Subtasks that do not stand for keys. ***/

  /** A template whose main container is named test. */
  function TestTemplate(cs: seq<Container>): Template {
    Template("test", [], cs, Idle, [], [])
  }

  lemma TestTemplateAccepted(cs: seq<Container>, env: string, key: string)
    requires cs != [] && env != ""
    ensures Accepted(PlainJob([], Some(FixedKeys(env, [key])), TestTemplate(cs)))
  {
    PlainJobAccepted([], Some(FixedKeys(env, [key])), TestTemplate(cs), NoNames);
  }

  lemma OneTask(key: string)
    ensures ScheduleOutcome([key], SchedulerParams(0, 1, 1), n => false) == Scheduled([StrategyKey(0, [key])])
  {
    BuildOutcome([StrategyKey(0, [key])], n => false, 0);
    ShortLists([key], 1, n => false);
    assert Counted([key]) == [key];
  }

  /** A sidecar that declares the strategy's variable runs as a subtask beside the key. */
  lemma SideCarRunsAsSubTask(env: string, key: string, value: string)
    requires env != ""
    ensures var main := Container("test", "image", [], []);
      var side := Container("side", "image", [EnvVar(env, value)], []);
      var t := StrategyKey(0, [key]);
      && Accepted(PlainJob([], Some(FixedKeys(env, [key])), TestTemplate([main, side])))
      && ScheduleOutcome([key], SchedulerParams(0, 1, 1), n => false) == Scheduled([t])
      && MainContainers(PodContainers([main, side], main, Some(KeySpec(t, env))), main.name, Some(env))
         != KeyContainers(main, KeySpec(t, env))
      && |SubTaskNames([main, side], main, env, t)| > 1
  {
    var main := Container("test", "image", [], []);
    var side := Container("side", "image", [EnvVar(env, value)], []);
    var t := StrategyKey(0, [key]);
    TestTemplateAccepted([main, side], env, key);
    OneTask(key);
    assert side in [main, side] && HasEnv(side.env, env) by {
      assert [main, side][1] == side && side.env[0].name == env;
    }
    MainContainersAreKeys([main, side], main, KeySpec(t, env));
  }

  /** The subtask of a main container that declares the variable is named by the declared value. */
  lemma MainNamesSubTask(env: string, key: string, value: string)
    requires env != "" && key != value
    ensures var main := Container("test", "image", [EnvVar(env, value)], []);
      var t := StrategyKey(0, [key]);
      && Accepted(PlainJob([], Some(FixedKeys(env, [key])), TestTemplate([main])))
      && ScheduleOutcome([key], SchedulerParams(0, 1, 1), n => false) == Scheduled([t])
      && SideCarsClean([main], main.name, env)
      && SubTaskNames([main], main, env, t) == [value] != [key]
  {
    var main := Container("test", "image", [EnvVar(env, value)], []);
    var t := StrategyKey(0, [key]);
    TestTemplateAccepted([main], env, key);
    OneTask(key);
    MainContainersAreKeys([main], main, KeySpec(t, env));
    var c := KeyContainers(main, KeySpec(t, env))[0];
    assert c.env[0] == EnvVar(env, value);
    assert KeyNameOf(c, Some(env)) == value;
  }

  /*** Names that are not known. ***/

  /** A job whose key task prints nothing and that exports an artifact of the main step. */
  function NoKeysJob(c: Container, path: Path, dir: string): JobSpec {
    var keys := MainStepOf(Template("", [], [c], Idle, [], []));
    var tests := MainStepOf(Template("", [], [c], Idle, [], [ArtifactSpec("result", "test", path)]));
    JobSpec(true, [], [], [], Some(StrategySpec("KEY", [], Some(keys), SchedulerParams(1, 0, 1))), tests, [],
            [ExportSpec("result", dir)])
  }

  lemma NoKeysJobAccepted(c: Container, path: Path, dir: string)
    requires c.name == "test" && path != [] && dir != ""
    ensures Accepted(NoKeysJob(c, path, dir))
  {
    var spec := NoKeysJob(c, path, dir);
    var a := ArtifactSpec("result", "test", path);
    var n := NameSets({}, {}, {"result"});
    assert HasContainer([c], "test") by {
      assert [c][0].name == "test";
    }
    assert AddArtifacts([a], [c], NoNames) == Some(n) by {
      assert [a][1..] == [] && AddArtifacts([], [c], n) == Some(n);
      assert NoNames.artifacts + {"result"} == {"result"};
    }
    assert AddStrategy(spec.strategy, NoNames) == Some(NoNames);
    assert AddMain(spec, NoNames) == Some(n);
    assert AddAllSteps(spec, NoNames) == Some(n);
  }

  lemma NoMainBuildFails(c: Container, path: Path, dir: string)
    requires c.name == "test" && c.mounts == [] && path != [] && dir != ""
    ensures var spec := NoKeysJob(c, path, dir);
      var run := JobRun([], [BuildRequest(spec.strategy.value.dynamic.value.template, None, [], false)], [], []);
      && Accepted(spec) && RunOf(run, spec)
      && ScheduleOutcome([], SchedulerParams(1, 0, 1), n => false) == Scheduled([])
      && JobOutcome(spec, run, SetUp(spec), false) == NotFound
  {
    var spec := NoKeysJob(c, path, dir);
    var q := BuildRequest(spec.strategy.value.dynamic.value.template, None, [], false);
    var run := JobRun([], [q], [], []);
    NoKeysJobAccepted(c, path, dir);
    assert AllBuilds(run) == [q] && MainContainer(q.template) == Ok(c);
    var a := spec.mainStep.template.artifacts;
    assert a[0].name in ArtifactNames(a);
    assert spec.exports[0].name in ArtifactNames(a);
    NoMainBuildExactly(spec, run, false);
    ShortLists([], 1, n => false);
    assert Counted([]) == [] && Singles<string>([]) == [] && Numbered([]) == [];
  }

  /** A job whose repository has a cloned path that does not exist and an undeclared token. */
  lemma ClonedPathFails(c: Container, path: string, token: string)
    requires c.mounts == [] && path != "" && token != ""
    ensures var repos := [RepoSpec("repo", path, "", token, "", "")];
      && Accepted(PlainJob(repos, None, Template("", [], [c], Idle, [], [])))
      && Cloned(repos, i => false, 0) && Undeclared(repos, TokenNames([]), 0)
  {
    var r := RepoSpec("repo", path, "", token, "", "");
    assert AddRepos([r], NoNames) == Some(RepoNamesOnly) by {
      assert [r][1..] == [] && AddRepos([], RepoNamesOnly) == Some(RepoNamesOnly);
      assert NoNames.repos + {"repo"} == {"repo"};
    }
    PlainJobAccepted([r], None, Template("", [], [c], Idle, [], []), RepoNamesOnly);
  }

  /*** Artifacts that are not found. ***/

  /** A job whose poststep mounts an artifact of some container of the main step. */
  function ArtifactJob(owner: string, volume: string, path: Path): JobSpec {
    var cs := [Container("test", "image", [], []), Container("side", "image", [], [])];
    var main := Template("test", [], cs, Idle, [], [ArtifactSpec("log", owner, path)]);
    var v := Volume(volume, VolumeSource(None, Some("log"), None, false, None, ""));
    var post := Template("", [], [Container("show", "image", [], [Mount(volume, path)])], Idle, [v], []);
    JobSpec(true, [], [], [], None, MainStepOf(main), [StepSpec("show", post, true)], [])
  }

  lemma ArtifactJobAccepted(owner: string, volume: string, path: Path)
    requires path != [] && owner in {"test", "side"} && volume != ""
    ensures Accepted(ArtifactJob(owner, volume, path))
  {
    var spec := ArtifactJob(owner, volume, path);
    var t, post := spec.mainStep.template, spec.postSteps[0];
    var n := NameSets({}, {}, {"log"});
    assert HasContainer(t.containers, owner) by {
      assert t.containers[0].name == "test" && t.containers[1].name == "side";
    }
    assert AddArtifacts(t.artifacts, t.containers, NoNames) == Some(n) by {
      assert t.artifacts[1..] == [] && AddArtifacts([], t.containers, n) == Some(n);
      assert NoNames.artifacts + {"log"} == {"log"};
    }
    assert AddMain(spec, NoNames) == Some(n);
    assert AddSteps(spec.postSteps, PostStepType, n) == Some(n) by {
      assert VolumesOk(post.template.volumes, PostStepType, n);
      assert AddStep(post, PostStepType, n) == Some(n);
      assert spec.postSteps[1..] == [];
    }
    assert AddAllSteps(spec, NoNames) == Some(n);
  }

  /** The poststep's build wants the artifact and stages it at the volume's path. */
  lemma ArtifactWanted(owner: string, volume: string, path: Path)
    ensures var post := ArtifactJob(owner, volume, path).postSteps[0].template;
      var b := BuildOf(post, post.containers[0], None);
      && Artifact("log") in Wanted(b, false)
      && b.main.Keys == {"show"} && Artifact("log") in b.main["show"].staging
      && b.main["show"].staging[Artifact("log")] == Staging(ResourceKind(Artifact("log")), volume)
  {
    var t := ArtifactJob(owner, volume, path).postSteps[0].template;
    var main := t.containers[0];
    LookupSingle(t.volumes[0]);
    assert LastOf(main.mounts, t.volumes, 0, Artifact("log"));
    PlanLast(main.mounts, t.volumes, 0, Artifact("log"));
    var b := BuildOf(t, main, None);
    assert t.containers[..0] == [];
    assert b.main == map["show" := Planned(main.mounts, t.volumes)];
    assert PlanOf(b, b.main["show"]);
    assert Stages(b, Artifact("log"), b.main["show"].staging[Artifact("log")]);
    WantedStages(b, Artifact("log"));
  }

  /** However often the main step was built and whatever its subtasks did, the artifact of a sidecar is
      wanted by the poststep's build and not found. */
  lemma {:induction false} SideCarArtifactLost(path: Path, run: ArtifactCopies.StepRun)
    requires path != [] && ArtifactCopies.RunsOf([run], ArtifactCopies.AllSteps(ArtifactJob("side", "logs", path)))
    ensures Accepted(ArtifactJob("side", "logs", path))
    ensures var post := ArtifactJob("side", "logs", path).postSteps[0].template;
      Artifact("log") in Wanted(BuildOf(post, post.containers[0], None), false)
    ensures !ArtifactCopies.Found(ArtifactCopies.AfterSteps(map[], [run]), "log")
  {
    var spec := ArtifactJob("side", "logs", path);
    var steps := ArtifactCopies.AllSteps(spec);
    ArtifactJobAccepted("side", "logs", path);
    assert steps[0] == spec.mainStep && [run][0] == run;
    var a := spec.mainStep.template.artifacts[0];
    assert MainContainer(run.template).value.name == "test";
    ArtifactCopies.ArtifactFoundExactly(spec, [run], 0, a);
    ArtifactWanted("side", "logs", path);
  }

  /** One copy of the main container's artifact, in a volume named like its file: the local executor
      writes the file to the staging path itself, and the mount command reads below it. */
  lemma {:induction false} VolumeNamedLikeFile(path: Path, run: ArtifactCopies.StepRun)
    requires path != [] && Base(path) != ""
    requires ArtifactCopies.RunsOf([run], ArtifactCopies.AllSteps(ArtifactJob("test", Base(path), path)))
    requires |run.subtasks| == 1 && run.subtasks[0].done >= 1
    ensures Accepted(ArtifactJob("test", Base(path), path))
    ensures var post := ArtifactJob("test", Base(path), path).postSteps[0].template;
      var b := BuildOf(post, post.containers[0], None);
      var found := PathOf(AfterRuns(EmptyStore, [run]), "log");
      && Artifact("log") in Wanted(b, false) && b.main.Keys == {"show"} && Artifact("log") in b.main["show"].staging
      && found.Some?
      && LocalTarget(found.value, b.main["show"].staging[Artifact("log")])
         != MountSource(found.value, b.main["show"].staging[Artifact("log")])
  {
    var spec := ArtifactJob("test", Base(path), path);
    ArtifactJobAccepted("test", Base(path), path);
    ArtifactWanted("test", Base(path), path);
    OneCopyFound(path, run);
  }

  lemma {:induction false} OneCopyFound(path: Path, run: ArtifactCopies.StepRun)
    requires path != [] && Base(path) != ""
    requires ArtifactCopies.RunsOf([run], ArtifactCopies.AllSteps(ArtifactJob("test", Base(path), path)))
    requires |run.subtasks| == 1 && run.subtasks[0].done >= 1
    ensures var found := PathOf(AfterRuns(EmptyStore, [run]), "log"); found.Some? && Base(found.value) == Base(path)
  {
    var spec := ArtifactJob("test", Base(path), path);
    assert ArtifactCopies.AllSteps(spec)[0] == spec.mainStep && [run][0] == run;
    assert run.template == spec.mainStep.template && run.mainName == "test";
    OneCopier(run, spec.mainStep.template.artifacts[0]);
    LastBuildRegisters(map[], map[], run.builds, run.template, 0);
    StoreOfOne(run);
  }

  lemma StoreOfOne(run: ArtifactCopies.StepRun)
    ensures AfterRuns(EmptyStore, [run])
            == Store(DirsAfter(map[], run.builds), FilesAfter(map[], run.builds), ArtifactCopies.AfterStep(map[], run))
  {
    assert [run][..0] == [] && AfterRuns(EmptyStore, []) == EmptyStore;
    assert run.builds[..|run.builds|] == run.builds && run.subtasks[..|run.subtasks|] == run.subtasks;
  }

  lemma OneCopier(run: ArtifactCopies.StepRun, a: ArtifactSpec)
    requires ArtifactCopies.WellBuilt(run) && run.template.artifacts == [a] && a.container == run.mainName
    requires |run.subtasks| == 1 && run.subtasks[0].done >= 1
    ensures a.name in ArtifactCopies.AfterStep(map[], run)
    ensures ArtifactCopies.AfterStep(map[], run)[a.name] == {run.subtasks[0].container}
  {
    OneCopied(run, a, run.subtasks[0]);
    ArtifactCopies.StepCopies(map[], run, a);
    ArtifactCopies.CopiersSnoc(run, a, [], run.subtasks[0]);
    assert run.subtasks == [] + [run.subtasks[0]];
    assert ArtifactCopies.Copiers(run, a, []) == {};
  }

  lemma OneCopied(run: ArtifactCopies.StepRun, a: ArtifactSpec, sub: ArtifactCopies.SubTaskCopy)
    requires run.template.artifacts == [a] && a.container == run.mainName && sub.done >= 1
    ensures ArtifactCopies.CopiedBy(run, a, sub)
  {
    assert ArtifactCopies.ArtifactsOf([a], a.container) == [a] by {
      assert [a][..0] == [];
    }
    ArtifactCopies.CompletedCopies(run, sub, a);
  }
}
