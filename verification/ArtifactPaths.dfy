/** The artifact directories of a run and the paths looked up in them: ArtifactManager in
    api/v1/artifact.go, copyArtifact and the two lookups of an artifact's path in
    api/v1/task_builder.go, and the local executor's CopyTo in api/v1/job.go. */
module ArtifactPaths {
  import opened Wrappers
  import opened PodSpecs
  import opened Builder
  import opened PreInitCopies
  import opened Validation
  import opened Lookups
  import opened ArtifactCopies
  import opened ContainerNames = Names
  import Results

  datatype Store = Store(dirs: map<string, string>, files: map<string, string>, copies: Copies)

  const EmptyStore: Store := Store(map[], map[], map[])

  /** An artifact copied by one container is that container's file; copied by several it is the
      directory that holds one directory per container. */
  ghost function PathIn(dir: string, file: string, containers: set<string>): Option<Path> {
    if containers == {} then None
    else if |containers| == 1 then
      var c :| c in containers;
      Some([dir, c, file])
    else Some([dir])
  }

  ghost function PathOf(st: Store, name: string): Option<Path> {
    if name !in st.dirs || name !in st.files then None
    else PathIn(st.dirs[name], st.files[name], CopiesAt(st.copies, name))
  }

  lemma OnlyMember(containers: set<string>, c: string, c': string)
    requires |containers| == 1 && c in containers && c' in containers
    ensures c == c'
  {
    assert |containers - {c}| == 0;
    assert c' != c ==> c' in containers - {c};
  }

  /*** The directories as the program keeps them. ***/

  function StoreAfter(st: Store, qs: seq<BuildRequest>): Store {
    Store(DirsAfter(st.dirs, qs), FilesAfter(st.files, qs), Rebuilt(st.copies, qs))
  }

  /** After the first i builds and the first j subtasks of a step. */
  function Midway(st: Store, s: StepRun, i: nat, j: nat): Store
    requires i <= |s.builds| && j <= |s.subtasks|
  {
    var built := StoreAfter(st, s.builds[..i]);
    built.(copies := AfterSubTasks(built.copies, s, s.subtasks[..j]))
  }

  function AfterRuns(st: Store, runs: seq<StepRun>): Store
    decreases |runs|
  {
    if runs == [] then st
    else
      var s := runs[|runs| - 1];
      Midway(AfterRuns(st, runs[..|runs| - 1]), s, |s.builds|, |s.subtasks|)
  }

  /** A main subtask: its container, how its command ends, and which of its copies fail. */
  datatype SubTaskInput = SubTaskInput(container: string, position: nat, execErr: Option<string>, fails: nat -> bool)

  /** Artifact i has a directory and its copy does not fail. */
  predicate Copyable(dirs: map<string, string>, artifacts: seq<ArtifactSpec>, i: nat, fails: nat -> bool) {
    i < |artifacts| && !fails(i) && artifacts[i].name in dirs
  }

  class ArtifactDirs {
    const mgr: ArtifactManager
    var copies: Copies

    predicate Valid()
      reads this, mgr
    {
      mgr.Valid() && copies.Keys == mgr.localDirs.Keys
    }

    function State(): Store
      reads this, mgr
    {
      Store(mgr.localDirs, mgr.localFiles, copies)
    }

    constructor ()
      ensures Valid() && fresh(mgr) && State() == EmptyStore
    {
      mgr := new ArtifactManager();
      copies := map[];
    }

    /** AddArtifacts of one build: every artifact that gets a directory starts without copies. */
    method Register(q: BuildRequest)
      requires Valid()
      modifies this, mgr
      ensures Valid() && State() == StoreAfter(old(State()), [q])
    {
      ghost var st := State();
      var ok := mgr.AddArtifacts(q.template.artifacts, q.dirs);
      assert q.template.artifacts[..|q.template.artifacts|] == q.template.artifacts;
      Empty(Created(q));
      RegisteredKeys(st.dirs, Created(q), q.dirs);
      EmptiedKeys(st.copies, Created(q));
      OneBuild(st, q);
    }

    method Empty(specs: seq<ArtifactSpec>)
      modifies this`copies
      ensures copies == Emptied(old(copies), specs)
    {
      ghost var before := copies;
      for i := 0 to |specs|
        invariant copies == Emptied(before, specs[..i])
      {
        assert specs[..i + 1][..i] == specs[..i];
        copies := copies[specs[i].name := {}];
      }
      assert specs[..|specs|] == specs;
    }

    /** copyArtifact of a subtask in the given container: the artifacts of the main container, or for
        a subtask that is not main of its own container, up to the first that has no directory or
        cannot be copied. */
    method CopyArtifact(specs: seq<ArtifactSpec>, mainName: string, isMain: bool, container: string, fails: nat -> bool)
      returns (err: Option<string>, done: nat)
      requires Valid()
      modifies this`copies
      ensures Valid()
      ensures var artifacts := ArtifactsOf(specs, if isMain then mainName else container);
        && done <= |artifacts| && (err.None? <==> done == |artifacts|)
        && (err.Some? ==> !Copyable(mgr.localDirs, artifacts, done, fails))
        && (forall i :: 0 <= i < done ==> Copyable(mgr.localDirs, artifacts, i, fails))
        && copies == Copied(old(copies), artifacts[..done], container)
    {
      var artifacts := ArtifactsOf(specs, if isMain then mainName else container);
      ghost var before := copies;
      done := 0;
      while done < |artifacts|
        invariant Valid() && done <= |artifacts|
        invariant forall i :: 0 <= i < done ==> Copyable(mgr.localDirs, artifacts, i, fails)
        invariant copies == Copied(before, artifacts[..done], container)
      {
        var ok := CopyOne(artifacts[done].name, container, fails(done));
        if !ok {
          return Some("failed to copy artifact"), done;
        }
        CopiedNext(before, artifacts, done, container);
        done := done + 1;
      }
      err := None;
    }

    method CopyOne(name: string, container: string, fails: bool) returns (ok: bool)
      requires Valid()
      modifies this`copies
      ensures Valid() && (ok <==> name in mgr.localDirs && !fails)
      ensures copies == if ok then old(copies)[name := CopiesAt(old(copies), name) + {container}] else old(copies)
    {
      var localPath := mgr.LocalPathByNameAndContainerName(name, container);
      ok := localPath.Some? && !fails;
      if ok {
        copies := copies[name := CopiesAt(copies, name) + {container}];
      }
    }

    /** SubTask.Run with its copyArtifact. */
    method RunSubTask(specs: seq<ArtifactSpec>, mainName: string, input: SubTaskInput)
      returns (result: Results.SubTaskResult, done: nat)
      requires Valid()
      modifies this`copies
      ensures Valid() && done <= |ArtifactsOf(specs, mainName)|
      ensures result.artifactErr.None? <==> done == |ArtifactsOf(specs, mainName)|
      ensures copies == Copied(old(copies), ArtifactsOf(specs, mainName)[..done], input.container)
    {
      var err;
      err, done := CopyArtifact(specs, mainName, true, input.container, input.fails);
      var subTask := new Results.SubTask(input.container, input.position, 0, true, true);
      result := subTask.Run(input.execErr, err);
    }

    method LocalPathByName(name: string) returns (path: Option<Path>)
      requires Valid()
      ensures path == PathOf(State(), name)
    {
      if name !in mgr.localDirs || name !in mgr.localFiles || copies[name] == {} {
        return None;
      }
      if |copies[name]| > 1 {
        return Some([mgr.localDirs[name]]);
      }
      var c :| c in copies[name];
      forall c' | c' in copies[name] ensures c' == c {
        OnlyMember(copies[name], c, c');
      }
      path := Some([mgr.localDirs[name], c, mgr.localFiles[name]]);
    }

    /** One step: all its builds, then its main subtasks in any one order.  A subtask's result carries
        no copy error exactly when it copied every artifact of the main container. */
    method RunStep(t: Template, mainName: string, qs: seq<BuildRequest>, inputs: seq<SubTaskInput>)
      returns (ghost s: StepRun, results: seq<Results.SubTaskResult>)
      requires Valid() && BuildsTemplate(qs, t)
      modifies this, mgr
      ensures Valid() && s == StepRun(t, mainName, qs, s.subtasks) && CopiesReported(s, s.subtasks, inputs, results)
      ensures State() == Midway(old(State()), s, |s.builds|, |s.subtasks|)
      ensures copies == AfterStep(old(copies), s)
    {
      RegisterAll(qs);
      ghost var built := copies;
      s := StepRun(t, mainName, qs, []);
      ghost var subs;
      subs, results := RunSubTasks(s, t.artifacts, mainName, inputs);
      SubTasksOfStep(built, s, s.(subtasks := subs), subs);
      s := s.(subtasks := subs);
      assert qs[..|qs|] == qs && subs[..|subs|] == subs;
    }

    method RunSubTasks(ghost s: StepRun, specs: seq<ArtifactSpec>, mainName: string, inputs: seq<SubTaskInput>)
      returns (ghost subs: seq<SubTaskCopy>, results: seq<Results.SubTaskResult>)
      requires Valid() && s.template.artifacts == specs && s.mainName == mainName
      modifies this`copies
      ensures Valid() && CopiesReported(s, subs, inputs, results)
      ensures copies == AfterSubTasks(old(copies), s, subs)
    {
      ghost var before := copies;
      subs, results := [], [];
      for k := 0 to |inputs|
        invariant Valid() && CopiesReported(s, subs, inputs[..k], results)
        invariant copies == AfterSubTasks(before, s, subs)
      {
        var result, done := RunSubTask(specs, mainName, inputs[k]);
        SubTaskNext(before, s, subs, SubTaskCopy(inputs[k].container, done));
        ReportedNext(s, subs, inputs, results, k, SubTaskCopy(inputs[k].container, done), result);
        results := results + [result];
        subs := subs + [SubTaskCopy(inputs[k].container, done)];
      }
      assert inputs[..|inputs|] == inputs;
    }

    method RegisterAll(qs: seq<BuildRequest>)
      requires Valid()
      modifies this, mgr
      ensures Valid() && State() == StoreAfter(old(State()), qs)
    {
      ghost var st := State();
      for i := 0 to |qs|
        invariant Valid() && State() == StoreAfter(st, qs[..i])
      {
        BuildsNext(st, qs, i);
        Register(qs[i]);
      }
      assert qs[..|qs|] == qs;
    }
  }

  lemma {:induction false} EmptiedKeys(m: Copies, specs: seq<ArtifactSpec>)
    ensures Emptied(m, specs).Keys == m.Keys + ArtifactNames(specs)
  {
    forall name ensures name in Emptied(m, specs) <==> name in m || name in ArtifactNames(specs) {
      EmptiedAt(m, specs, name);
    }
  }

  lemma BuildsNext(st: Store, qs: seq<BuildRequest>, i: nat)
    requires i < |qs|
    ensures StoreAfter(st, qs[..i + 1]) == StoreAfter(StoreAfter(st, qs[..i]), [qs[i]])
  {
    AfterNext(st.dirs, st.files, qs, i);
    var before := StoreAfter(st, qs[..i]);
    OneBuild(before, qs[i]);
    RebuiltNext(st.copies, qs, i);
    assert before.copies == Rebuilt(st.copies, qs[..i]);
  }

  lemma RebuiltNext(m: Copies, qs: seq<BuildRequest>, i: nat)
    requires i < |qs|
    ensures Rebuilt(m, qs[..i + 1]) == Emptied(Rebuilt(m, qs[..i]), Created(qs[i]))
  {
    assert qs[..i + 1][..i] == qs[..i];
  }

  lemma OneBuild(st: Store, q: BuildRequest)
    ensures StoreAfter(st, [q]) == Store(Registered(st.dirs, NameList(Created(q)), q.dirs),
                                         Registered(st.files, NameList(Created(q)), FileList(Created(q))),
                                         Emptied(st.copies, Created(q)))
  {
    var qs := [q];
    assert qs[..|qs| - 1] == [] && qs[|qs| - 1] == q;
    assert DirsAfter(st.dirs, []) == st.dirs && FilesAfter(st.files, []) == st.files;
    assert Rebuilt(st.copies, []) == st.copies;
    assert DirsAfter(st.dirs, qs) == Registered(st.dirs, NameList(Created(q)), q.dirs);
    assert FilesAfter(st.files, qs) == Registered(st.files, NameList(Created(q)), FileList(Created(q)));
    assert Rebuilt(st.copies, qs) == Emptied(st.copies, Created(q));
  }

  lemma CopiedNext(m: Copies, artifacts: seq<ArtifactSpec>, i: nat, container: string)
    requires i < |artifacts|
    ensures var before, name := Copied(m, artifacts[..i], container), artifacts[i].name;
      Copied(m, artifacts[..i + 1], container) == before[name := CopiesAt(before, name) + {container}]
  {
    assert artifacts[..i + 1][..i] == artifacts[..i];
  }

  /** Each subtask copies for its own container, and its result carries no copy error exactly when it
      copied everything. */
  predicate CopiesReported(s: StepRun, subs: seq<SubTaskCopy>, inputs: seq<SubTaskInput>, results: seq<Results.SubTaskResult>) {
    && |subs| == |inputs| == |results|
    && forall k :: 0 <= k < |subs| ==>
         && subs[k].container == inputs[k].container
         && (results[k].artifactErr.None? <==> subs[k].done == |ArtifactsOf(s.template.artifacts, s.mainName)|)
  }

  lemma ReportedNext(s: StepRun, subs: seq<SubTaskCopy>, inputs: seq<SubTaskInput>, results: seq<Results.SubTaskResult>,
                     k: nat, sub: SubTaskCopy, result: Results.SubTaskResult)
    requires k < |inputs| && CopiesReported(s, subs, inputs[..k], results) && sub.container == inputs[k].container
    requires result.artifactErr.None? <==> sub.done == |ArtifactsOf(s.template.artifacts, s.mainName)|
    ensures CopiesReported(s, subs + [sub], inputs[..k + 1], results + [result])
  {
  }

  lemma SubTaskNext(m: Copies, s: StepRun, subs: seq<SubTaskCopy>, sub: SubTaskCopy)
    requires sub.done <= |ArtifactsOf(s.template.artifacts, s.mainName)|
    ensures AfterSubTasks(m, s, subs + [sub])
            == Copied(AfterSubTasks(m, s, subs), ArtifactsOf(s.template.artifacts, s.mainName)[..sub.done], sub.container)
  {
    assert (subs + [sub])[..|subs|] == subs;
  }

  lemma {:induction false} SubTasksOfStep(m: Copies, s: StepRun, s': StepRun, subs: seq<SubTaskCopy>)
    requires s'.template == s.template && s'.mainName == s.mainName
    ensures AfterSubTasks(m, s', subs) == AfterSubTasks(m, s, subs)
    decreases |subs|
  {
    if subs != [] {
      SubTasksOfStep(m, s, s', subs[..|subs| - 1]);
    }
  }

  /*** A path stays. ***/

  lemma {:induction false} BuildsLeavePaths(dirs: map<string, string>, files: map<string, string>, qs: seq<BuildRequest>,
                                            t: Template, name: string)
    requires BuildsTemplate(qs, t) && name !in ArtifactNames(t.artifacts)
    ensures (name in DirsAfter(dirs, qs) <==> name in dirs) && (name in dirs ==> DirsAfter(dirs, qs)[name] == dirs[name])
    ensures (name in FilesAfter(files, qs) <==> name in files) && (name in files ==> FilesAfter(files, qs)[name] == files[name])
    decreases |qs|
  {
    if qs != [] {
      var n := |qs| - 1;
      var specs := Created(qs[n]);
      BuildsLeavePaths(dirs, files, qs[..n], t, name);
      CreatedOfStep(qs[n]);
      forall i | 0 <= i < |specs| ensures NameList(specs)[i] != name {
        assert specs[i].name in ArtifactNames(specs);
      }
      RegisteredValue(DirsAfter(dirs, qs[..n]), NameList(specs), qs[n].dirs, name);
      RegisteredValue(FilesAfter(files, qs[..n]), NameList(specs), FileList(specs), name);
    }
  }

  /** While a step is built and runs, the path of an artifact of another step does not change. */
  lemma PathStays(st: Store, s: StepRun, i: nat, j: nat, name: string)
    requires i <= |s.builds| && j <= |s.subtasks|
    requires BuildsTemplate(s.builds, s.template) && name !in ArtifactNames(s.template.artifacts)
    ensures PathOf(Midway(st, s, i, j), name) == PathOf(st, name)
  {
    BuildsLeavePaths(st.dirs, st.files, s.builds[..i], s.template, name);
    RebuiltLeaves(st.copies, s.builds[..i], s.template, name);
    SubTasksLeave(Rebuilt(st.copies, s.builds[..i]), s, s.subtasks[..j], name);
  }

  /*** What is copied and what is read. ***/

  /** Where the local executor's CopyTo writes: below the destination unless that already ends in the
      source's base name. */
  function LocalTarget(src: Path, dst: Path): Path {
    if Base(src) != Base(dst) then dst + [Base(src)] else dst
  }

  /** What mountArtifact copies from. */
  function MountSource(path: Path, staging: Path): Path {
    staging + [Base(path)]
  }

  /** Between the build of a pod, whenever it happens, and the mount of its artifacts, whatever was built
      or copied meanwhile, an artifact's path stays the same.  So the mount command reads what the local
      executor wrote exactly when the artifact's base name is not the name of its volume. */
  lemma {:induction false} MountReadsCopy(spec: JobSpec, runs: seq<StepRun>, s: StepRun, main: Container, key: Option<KeySpec>, name: string,
                       volume: string, i: nat, j: nat, i': nat, j': nat)
    requires Accepted(spec) && RunsOf(runs, AllSteps(spec)) && |runs| < |AllSteps(spec)|
    requires s.template == AllSteps(spec)[|runs|].template && BuildsTemplate(s.builds, s.template)
    requires Artifact(name) in Wanted(BuildOf(s.template, main, key), false)
    requires i <= |s.builds| && j <= |s.subtasks| && i' <= |s.builds| && j' <= |s.subtasks|
    ensures var st := AfterRuns(EmptyStore, runs); var staging := Staging(ResourceKind(Artifact(name)), volume);
      var built, mounted := PathOf(Midway(st, s, i, j), name), PathOf(Midway(st, s, i', j'), name);
      && built == mounted == PathOf(st, name)
      && (built.Some? ==>
            (LocalTarget(built.value, staging) == MountSource(mounted.value, staging) <==> Base(built.value) != volume))
  {
    var st := AfterRuns(EmptyStore, runs);
    WantedOfOtherStep(spec, runs, main, key, name);
    PathStays(st, s, i, j, name);
    PathStays(st, s, i', j', name);
    var staging := Staging(ResourceKind(Artifact(name)), volume);
    assert Base(staging) == volume;
  }

  lemma {:induction false} WantedOfOtherStep(spec: JobSpec, runs: seq<StepRun>, main: Container, key: Option<KeySpec>, name: string)
    requires Accepted(spec) && RunsOf(runs, AllSteps(spec)) && |runs| < |AllSteps(spec)|
    requires Artifact(name) in Wanted(BuildOf(AllSteps(spec)[|runs|].template, main, key), false)
    ensures name !in ArtifactNames(AllSteps(spec)[|runs|].template.artifacts)
  {
    var steps, p := AllSteps(spec), |runs|;
    AcceptedChain(spec);
    ChainAt(steps, {}, p);
    var v := WantedDeclared(steps[p].template, main, key, false, Artifact(name));
    assert name in NamesOf(steps[..p]);
  }

  /** The copies of a store are those of module ArtifactCopies. */
  lemma {:induction false} CopiesOfRuns(st: Store, runs: seq<StepRun>)
    ensures AfterRuns(st, runs).copies == AfterSteps(st.copies, runs)
    decreases |runs|
  {
    if runs != [] {
      var s := runs[|runs| - 1];
      CopiesOfRuns(st, runs[..|runs| - 1]);
      assert s.builds[..|s.builds|] == s.builds && s.subtasks[..|s.subtasks|] == s.subtasks;
    }
  }

  lemma {:induction false} RunsKnow(steps: seq<StepSpec>, runs: seq<StepRun>, i: nat, a: ArtifactSpec)
    requires Chain(steps, {}) && RunsOf(runs, steps) && i < |runs| && a in runs[i].template.artifacts
    ensures var st := AfterRuns(EmptyStore, runs); a.name in st.dirs && a.name in st.files
    decreases |runs|
  {
    var n := |runs| - 1;
    var s := runs[n];
    var before := AfterRuns(EmptyStore, runs[..n]);
    assert s.builds[..|s.builds|] == s.builds;
    var j :| 0 <= j < |runs[i].template.artifacts| && runs[i].template.artifacts[j] == a;
    assert runs[i].template.artifacts[j].name in ArtifactNames(runs[i].template.artifacts);
    if i == n {
      ChainAt(steps, {}, n);
      BuildsKnow(before.dirs, before.files, s.builds, s.template, j);
    } else {
      RunsKnow(steps, runs[..n], i, a);
      OtherStep(steps, i, n, a.name);
      BuildsLeavePaths(before.dirs, before.files, s.builds, s.template, a.name);
    }
  }

  lemma BuildsKnow(dirs: map<string, string>, files: map<string, string>, qs: seq<BuildRequest>, t: Template, j: nat)
    requires qs != [] && AllCreated(qs) && BuildsTemplate(qs, t) && NamesDistinct(t.artifacts) && j < |t.artifacts|
    ensures t.artifacts[j].name in DirsAfter(dirs, qs) && t.artifacts[j].name in FilesAfter(files, qs)
  {
    assert LastAt(NameList(t.artifacts), j);
    LastBuildRegisters(dirs, files, qs, t, j);
  }

  /** In an accepted job the lookup of an artifact of an earlier step succeeds exactly when its directory
      holds a copy. */
  lemma {:induction false} PathFoundExactly(spec: JobSpec, runs: seq<StepRun>, i: nat, a: ArtifactSpec)
    requires Accepted(spec) && RunsOf(runs, AllSteps(spec)) && i < |runs| && a in runs[i].template.artifacts
    ensures PathOf(AfterRuns(EmptyStore, runs), a.name).Some? <==> Found(AfterSteps(map[], runs), a.name)
  {
    AcceptedChain(spec);
    RunsKnow(AllSteps(spec), runs, i, a);
    CopiesOfRuns(EmptyStore, runs);
    var st := AfterRuns(EmptyStore, runs);
    assert st.copies == AfterSteps(map[], runs);
    PathSome(st, a.name);
  }

  lemma PathSome(st: Store, name: string)
    requires name in st.dirs && name in st.files
    ensures PathOf(st, name).Some? <==> Found(st.copies, name)
  {
  }

  /*** The path found and the path copied to. ***/

  /** A path as the program writes it. */
  function Written(p: Path): string {
    if p == [] then "" else if |p| == 1 then p[0] else p[0] + "/" + Written(p[1..])
  }

  /** The path found leads to every copy: with one copy it is where that was written, and with several
      each was written to its container's directory below it. */
  lemma PathLeadsToCopies(st: Store, name: string, c: string)
    requires PathOf(st, name).Some? && c in CopiesAt(st.copies, name)
    ensures name in st.dirs && name in st.files
    ensures var path := PathOf(st, name).value; var written := LocalPath(st.dirs[name], c, st.files[name]);
      if |st.copies[name]| == 1 then Written(path) == written && Base(path) == st.files[name]
      else Written(path + [c, st.files[name]]) == written
  {
    var dir, file := st.dirs[name], st.files[name];
    WrittenThree(dir, c, file);
    assert [dir] + [c, file] == [dir, c, file];
    if |st.copies[name]| == 1 {
      PathInOne(dir, file, st.copies[name], c);
    }
  }

  lemma WrittenThree(dir: string, c: string, file: string)
    ensures Written([dir, c, file]) == LocalPath(dir, c, file)
  {
    assert [dir, c, file][1..] == [c, file] && [c, file][1..] == [file];
    assert Written([c, file]) == c + "/" + file;
    assert dir + "/" + (c + "/" + file) == LocalPath(dir, c, file);
  }

  lemma PathInOne(dir: string, file: string, containers: set<string>, c: string)
    requires |containers| == 1 && c in containers
    ensures PathIn(dir, file, containers) == Some([dir, c, file])
  {
    forall c' | c' in containers ensures c' == c {
      OnlyMember(containers, c, c');
    }
  }
}
