/** Which artifacts a later step finds: copyArtifact in api/v1/task_builder.go puts an artifact below
    its directory, and LocalPathByName in api/v1/artifact.go fails while that directory is empty.
    Everything here is about run modes other than the dry run, which copies nothing. */
module ArtifactCopies {
  import opened Wrappers
  import opened Seqs
  import opened PodSpecs
  import opened Builder
  import opened PreInitCopies
  import opened Validation
  import opened Lookups

  /** For each registered artifact the containers whose copy lies in its directory. */
  type Copies = map<string, set<string>>

  /** Registering a name gives it a new, empty directory. */
  function Emptied(m: Copies, specs: seq<ArtifactSpec>): Copies
    decreases |specs|
  {
    if specs == [] then m else Emptied(m, specs[..|specs| - 1])[specs[|specs| - 1].name := {}]
  }

  /** artifactMap[container]. */
  function ArtifactsOf(specs: seq<ArtifactSpec>, container: string): seq<ArtifactSpec> {
    if specs == [] then []
    else ArtifactsOf(specs[..|specs| - 1], container)
         + (if specs[|specs| - 1].container == container then [specs[|specs| - 1]] else [])
  }

  function CopiesAt(m: Copies, name: string): set<string> {
    if name in m then m[name] else {}
  }

  function Copied(m: Copies, specs: seq<ArtifactSpec>, container: string): Copies
    decreases |specs|
  {
    if specs == [] then m
    else
      var before, name := Copied(m, specs[..|specs| - 1], container), specs[|specs| - 1].name;
      before[name := CopiesAt(before, name) + {container}]
  }

  /** LocalPathByName succeeds. */
  predicate Found(m: Copies, name: string) {
    name in m && m[name] != {}
  }

  /*** One step. ***/

  /** A main subtask of any attempt: its container and how many of the main container's artifacts it
      copied. */
  datatype SubTaskCopy = SubTaskCopy(container: string, done: nat)

  /** One step of a run.  All its tasks are built, and their artifacts registered, before the first of
      its subtasks runs. */
  datatype StepRun = StepRun(template: Template, mainName: string, builds: seq<BuildRequest>, subtasks: seq<SubTaskCopy>)

  /** The builds are those of the step. */
  predicate BuildsTemplate(qs: seq<BuildRequest>, t: Template) {
    forall i :: 0 <= i < |qs| ==> qs[i].template == t
  }

  /** The step was built, with a directory for every artifact. */
  predicate WellBuilt(s: StepRun) {
    s.builds != [] && AllCreated(s.builds) && BuildsTemplate(s.builds, s.template)
  }

  function Rebuilt(m: Copies, qs: seq<BuildRequest>): Copies
    decreases |qs|
  {
    if qs == [] then m else Emptied(Rebuilt(m, qs[..|qs| - 1]), Created(qs[|qs| - 1]))
  }

  /** What a subtask copied. */
  function CopiedSpecs(s: StepRun, sub: SubTaskCopy): seq<ArtifactSpec> {
    var artifacts := ArtifactsOf(s.template.artifacts, s.mainName);
    if sub.done <= |artifacts| then artifacts[..sub.done] else artifacts
  }

  function AfterSubTasks(m: Copies, s: StepRun, subs: seq<SubTaskCopy>): Copies
    decreases |subs|
  {
    if subs == [] then m
    else
      var last := subs[|subs| - 1];
      Copied(AfterSubTasks(m, s, subs[..|subs| - 1]), CopiedSpecs(s, last), last.container)
  }

  function AfterStep(m: Copies, s: StepRun): Copies {
    AfterSubTasks(Rebuilt(m, s.builds), s, s.subtasks)
  }

  predicate CopiedBy(s: StepRun, a: ArtifactSpec, sub: SubTaskCopy) {
    a in CopiedSpecs(s, sub)
  }

  /** The containers of the subtasks that copied the artifact. */
  function Copiers(s: StepRun, a: ArtifactSpec, subs: seq<SubTaskCopy>): set<string> {
    set k | 0 <= k < |subs| && CopiedBy(s, a, subs[k]) :: subs[k].container
  }

  lemma {:induction false} ArtifactsOfContainer(specs: seq<ArtifactSpec>, container: string, a: ArtifactSpec)
    ensures a in ArtifactsOf(specs, container) <==> a in specs && a.container == container
  {
    if specs != [] {
      ArtifactsOfContainer(specs[..|specs| - 1], container, a);
      assert specs == specs[..|specs| - 1] + [specs[|specs| - 1]];
    }
  }

  /** Only artifacts of the main container are ever copied. */
  lemma CopiedIsMain(s: StepRun, a: ArtifactSpec, sub: SubTaskCopy)
    requires CopiedBy(s, a, sub)
    ensures a in s.template.artifacts && a.container == s.mainName
  {
    ArtifactsOfContainer(s.template.artifacts, s.mainName, a);
  }

  lemma {:induction false} EmptiedAt(m: Copies, specs: seq<ArtifactSpec>, name: string)
    ensures name in ArtifactNames(specs) ==> name in Emptied(m, specs) && Emptied(m, specs)[name] == {}
    ensures name !in ArtifactNames(specs) ==>
              (name in Emptied(m, specs) <==> name in m) && CopiesAt(Emptied(m, specs), name) == CopiesAt(m, name)
    decreases |specs|
  {
    if specs != [] {
      var n := |specs| - 1;
      EmptiedAt(m, specs[..n], name);
      assert specs == specs[..n] + [specs[n]];
      NamesSnoc(specs[..n], specs[n]);
    }
  }

  lemma NamesSnoc(specs: seq<ArtifactSpec>, s: ArtifactSpec)
    ensures ArtifactNames(specs + [s]) == ArtifactNames(specs) + {s.name}
  {
    var all := specs + [s];
    assert all[|specs|] == s;
    forall x | x in ArtifactNames(specs) ensures x in ArtifactNames(all) {
      var i :| 0 <= i < |specs| && specs[i].name == x;
      assert all[i].name == x;
    }
  }

  lemma {:induction false} RebuiltEmpty(m: Copies, qs: seq<BuildRequest>, t: Template, name: string)
    requires qs != [] && AllCreated(qs) && BuildsTemplate(qs, t) && name in ArtifactNames(t.artifacts)
    ensures name in Rebuilt(m, qs) && Rebuilt(m, qs)[name] == {}
  {
    EmptiedAt(Rebuilt(m, qs[..|qs| - 1]), Created(qs[|qs| - 1]), name);
  }

  lemma {:induction false} RebuiltLeaves(m: Copies, qs: seq<BuildRequest>, t: Template, name: string)
    requires BuildsTemplate(qs, t) && name !in ArtifactNames(t.artifacts)
    ensures (name in Rebuilt(m, qs) <==> name in m) && CopiesAt(Rebuilt(m, qs), name) == CopiesAt(m, name)
    decreases |qs|
  {
    if qs != [] {
      var n := |qs| - 1;
      RebuiltLeaves(m, qs[..n], t, name);
      CreatedOfStep(qs[n]);
      EmptiedAt(Rebuilt(m, qs[..n]), Created(qs[n]), name);
    }
  }

  lemma CreatedOfStep(q: BuildRequest)
    ensures ArtifactNames(Created(q)) <= ArtifactNames(q.template.artifacts)
  {
    forall i | 0 <= i < |Created(q)| ensures Created(q)[i].name in ArtifactNames(q.template.artifacts) {
      assert q.template.artifacts[i] == Created(q)[i];
    }
  }

  /** Copying adds the container to exactly the names copied. */
  lemma {:induction false} CopiedAt(m: Copies, specs: seq<ArtifactSpec>, container: string, name: string)
    ensures name in m ==> name in Copied(m, specs, container)
    ensures CopiesAt(Copied(m, specs, container), name)
            == CopiesAt(m, name) + if name in ArtifactNames(specs) then {container} else {}
    ensures name in Copied(m, specs, container) <==> name in m || name in ArtifactNames(specs)
    decreases |specs|
  {
    if specs != [] {
      var n := |specs| - 1;
      CopiedAt(m, specs[..n], container, name);
      assert specs == specs[..n] + [specs[n]];
      NamesSnoc(specs[..n], specs[n]);
    }
  }

  /** Names within a step are distinct. */
  predicate NamesDistinct(specs: seq<ArtifactSpec>) {
    forall i, j :: 0 <= i < j < |specs| ==> specs[i].name != specs[j].name
  }

  lemma CopiedNames(s: StepRun, sub: SubTaskCopy, a: ArtifactSpec)
    requires NamesDistinct(s.template.artifacts) && a in s.template.artifacts
    ensures a.name in ArtifactNames(CopiedSpecs(s, sub)) <==> CopiedBy(s, a, sub)
  {
    var specs := CopiedSpecs(s, sub);
    if a.name in ArtifactNames(specs) {
      var i :| 0 <= i < |specs| && specs[i].name == a.name;
      CopiedIsMain(s, specs[i], sub);
      SameSpec(s.template.artifacts, specs[i], a);
    }
    if a in specs {
      var i :| 0 <= i < |specs| && specs[i] == a;
      assert specs[i].name in ArtifactNames(specs);
    }
  }

  lemma SameSpec(specs: seq<ArtifactSpec>, a: ArtifactSpec, b: ArtifactSpec)
    requires NamesDistinct(specs) && a in specs && b in specs && a.name == b.name
    ensures a == b
  {
    var i :| 0 <= i < |specs| && specs[i] == a;
    var j :| 0 <= j < |specs| && specs[j] == b;
    DistinctAt(specs, i, j);
  }

  lemma DistinctAt(specs: seq<ArtifactSpec>, i: nat, j: nat)
    requires NamesDistinct(specs) && i < |specs| && j < |specs|
    ensures specs[i].name == specs[j].name ==> i == j
  {
  }

  lemma CopiersSnoc(s: StepRun, a: ArtifactSpec, subs: seq<SubTaskCopy>, last: SubTaskCopy)
    ensures Copiers(s, a, subs + [last]) == Copiers(s, a, subs) + if CopiedBy(s, a, last) then {last.container} else {}
  {
    var all := subs + [last];
    assert all[|subs|] == last;
    forall x | x in Copiers(s, a, subs) ensures x in Copiers(s, a, all) {
      var k :| 0 <= k < |subs| && CopiedBy(s, a, subs[k]) && subs[k].container == x;
      assert all[k] == subs[k];
    }
    if CopiedBy(s, a, last) {
      assert last.container in Copiers(s, a, all);
    }
  }

  lemma {:induction false} SubTasksCopy(m: Copies, s: StepRun, subs: seq<SubTaskCopy>, a: ArtifactSpec)
    requires NamesDistinct(s.template.artifacts) && a in s.template.artifacts && a.name in m
    ensures a.name in AfterSubTasks(m, s, subs)
    ensures AfterSubTasks(m, s, subs)[a.name] == m[a.name] + Copiers(s, a, subs)
    decreases |subs|
  {
    if subs != [] {
      var n := |subs| - 1;
      var init, last := subs[..n], subs[n];
      SubTasksCopy(m, s, init, a);
      CopiedAt(AfterSubTasks(m, s, init), CopiedSpecs(s, last), last.container, a.name);
      CopiedNames(s, last, a);
      CopiersSnoc(s, a, init, last);
      assert subs == init + [last];
    }
  }

  /** After its step an artifact lies in its directory once per container whose subtask copied it. */
  lemma StepCopies(m: Copies, s: StepRun, a: ArtifactSpec)
    requires NamesDistinct(s.template.artifacts) && a in s.template.artifacts && WellBuilt(s)
    ensures a.name in AfterStep(m, s) && AfterStep(m, s)[a.name] == Copiers(s, a, s.subtasks)
  {
    var specs := s.template.artifacts;
    var i :| 0 <= i < |specs| && specs[i] == a;
    assert specs[i].name in ArtifactNames(specs);
    RebuiltEmpty(m, s.builds, s.template, a.name);
    SubTasksCopy(Rebuilt(m, s.builds), s, s.subtasks, a);
  }

  lemma {:induction false} SubTasksLeave(m: Copies, s: StepRun, subs: seq<SubTaskCopy>, name: string)
    requires name !in ArtifactNames(s.template.artifacts)
    ensures name in AfterSubTasks(m, s, subs) <==> name in m
    ensures CopiesAt(AfterSubTasks(m, s, subs), name) == CopiesAt(m, name)
    decreases |subs|
  {
    if subs != [] {
      var n := |subs| - 1;
      SubTasksLeave(m, s, subs[..n], name);
      CopiedAt(AfterSubTasks(m, s, subs[..n]), CopiedSpecs(s, subs[n]), subs[n].container, name);
      CopiedOfStep(s, subs[n]);
    }
  }

  lemma CopiedOfStep(s: StepRun, sub: SubTaskCopy)
    ensures ArtifactNames(CopiedSpecs(s, sub)) <= ArtifactNames(s.template.artifacts)
  {
    var specs := CopiedSpecs(s, sub);
    forall i | 0 <= i < |specs| ensures specs[i].name in ArtifactNames(s.template.artifacts) {
      CopiedIsMain(s, specs[i], sub);
      var j :| 0 <= j < |s.template.artifacts| && s.template.artifacts[j] == specs[i];
      assert s.template.artifacts[j].name == specs[i].name;
    }
  }

  /** A step leaves the artifacts of other steps alone. */
  lemma StepLeaves(m: Copies, s: StepRun, name: string)
    requires BuildsTemplate(s.builds, s.template) && name !in ArtifactNames(s.template.artifacts)
    ensures name in AfterStep(m, s) <==> name in m
    ensures CopiesAt(AfterStep(m, s), name) == CopiesAt(m, name)
  {
    RebuiltLeaves(m, s.builds, s.template, name);
    SubTasksLeave(Rebuilt(m, s.builds), s, s.subtasks, name);
  }

  /*** The steps of a job. ***/

  function AllSteps(spec: JobSpec): seq<StepSpec> {
    spec.preSteps + (DynamicSteps(spec) + ([spec.mainStep] + spec.postSteps))
  }

  /** The artifact volumes of a step. */
  predicate VolumesKnown(t: Template, known: set<string>) {
    forall i :: 0 <= i < |t.volumes| ==>
      var kind := KindOf(t.volumes[i].source);
      kind.ResourceKind? && kind.resource.Artifact? ==> kind.resource.name in known
  }

  function NamesOf(steps: seq<StepSpec>): set<string> {
    if steps == [] then {} else ArtifactNames(steps[0].template.artifacts) + NamesOf(steps[1..])
  }

  /** Each step brings new artifact names and mounts earlier ones only. */
  predicate Chain(steps: seq<StepSpec>, known: set<string>)
    decreases |steps|
  {
    steps == [] ||
    var t := steps[0].template;
    && NamesDistinct(t.artifacts) && known !! ArtifactNames(t.artifacts) && NamedVolumes(t.volumes) && VolumesKnown(t, known)
    && Chain(steps[1..], known + ArtifactNames(t.artifacts))
  }

  lemma {:induction false} AcceptedNamesDistinct(specs: seq<ArtifactSpec>, cs: seq<Container>, n: NameSets)
    requires AddArtifacts(specs, cs, n).Some?
    ensures NamesDistinct(specs)
    ensures forall i :: 0 <= i < |specs| ==> specs[i].name !in n.artifacts
    decreases |specs|
  {
    if specs != [] {
      var rest := specs[1..];
      AcceptedNamesDistinct(rest, cs, n.(artifacts := n.artifacts + {specs[0].name}));
      forall i | 0 < i < |specs| ensures specs[i].name != specs[0].name && specs[i].name !in n.artifacts {
        assert rest[i - 1] == specs[i];
      }
      forall i, j | 0 < i < j < |specs| ensures specs[i].name != specs[j].name {
        assert rest[i - 1] == specs[i] && rest[j - 1] == specs[j];
      }
    }
  }

  lemma StepChain(s: StepSpec, stepType: StepType, n: NameSets)
    requires AddStep(s, stepType, n).Some?
    ensures Chain([s], n.artifacts)
    ensures AddStep(s, stepType, n).value.artifacts == n.artifacts + NamesOf([s])
  {
    StepAdded(s, stepType, n);
    AcceptedNamesDistinct(s.template.artifacts, s.template.containers, n);
    forall i | 0 <= i < |s.template.volumes| ensures SourceOk(s.template.volumes[i].source, stepType, n) {
    }
    assert [s][1..] == [];
    assert Chain([], n.artifacts + ArtifactNames(s.template.artifacts)) && NamesOf([]) == {};
  }

  lemma {:induction false} ChainConcat(a: seq<StepSpec>, b: seq<StepSpec>, known: set<string>)
    requires Chain(a, known) && Chain(b, known + NamesOf(a))
    ensures Chain(a + b, known)
    decreases |a|
  {
    if a == [] {
      assert a + b == b && known + NamesOf(a) == known;
    } else {
      var names := ArtifactNames(a[0].template.artifacts);
      assert (a + b)[0] == a[0] && (a + b)[1..] == a[1..] + b;
      assert known + NamesOf(a) == (known + names) + NamesOf(a[1..]);
      ChainConcat(a[1..], b, known + names);
    }
  }

  lemma {:induction false} StepsChain(steps: seq<StepSpec>, stepType: StepType, n: NameSets)
    requires AddSteps(steps, stepType, n).Some?
    ensures Chain(steps, n.artifacts)
    ensures AddSteps(steps, stepType, n).value.artifacts == n.artifacts + NamesOf(steps)
    decreases |steps|
  {
    if steps != [] {
      var n' := AddStep(steps[0], stepType, n).value;
      StepChain(steps[0], stepType, n);
      StepsChain(steps[1..], stepType, n');
      ChainConcat([steps[0]], steps[1..], n.artifacts);
      assert steps == [steps[0]] + steps[1..];
      assert [steps[0]][1..] == [] && NamesOf([]) == {};
    }
  }

  /** An accepted job is a chain of steps. */
  lemma AcceptedChain(spec: JobSpec)
    requires Accepted(spec)
    ensures Chain(AllSteps(spec), {})
  {
    var n1, n2, n3, n4 := AcceptedParts(spec);
    StepsChain(spec.preSteps, PreStepType, SetUp(spec));
    DynamicChain(spec, n1);
    StepChain(spec.mainStep, MainStepType, n2);
    StepsChain(spec.postSteps, PostStepType, n3);
    ChainConcat([spec.mainStep], spec.postSteps, n2.artifacts);
    ChainConcat(DynamicSteps(spec), [spec.mainStep] + spec.postSteps, n1.artifacts);
    assert SetUp(spec).artifacts + NamesOf(spec.preSteps) == n1.artifacts;
    ChainConcat(spec.preSteps, DynamicSteps(spec) + ([spec.mainStep] + spec.postSteps), {});
  }

  lemma DynamicChain(spec: JobSpec, n: NameSets)
    requires DynamicNames(spec, n).Some?
    ensures Chain(DynamicSteps(spec), n.artifacts)
    ensures DynamicNames(spec, n).value.artifacts == n.artifacts + NamesOf(DynamicSteps(spec))
  {
    if DynamicSteps(spec) != [] {
      StepChain(spec.strategy.value.dynamic.value, MainStepType, n);
    }
  }

  lemma {:induction false} ChainAt(steps: seq<StepSpec>, known: set<string>, i: nat)
    requires Chain(steps, known) && i < |steps|
    ensures var t := steps[i].template;
      && NamesDistinct(t.artifacts) && NamedVolumes(t.volumes)
      && VolumesKnown(t, known + NamesOf(steps[..i])) && (known + NamesOf(steps[..i])) !! ArtifactNames(t.artifacts)
    decreases |steps|
  {
    if i == 0 {
      assert steps[..0] == [] && known + NamesOf([]) == known;
    } else {
      var names := ArtifactNames(steps[0].template.artifacts);
      ChainAt(steps[1..], known + names, i - 1);
      assert steps[..i][0] == steps[0] && steps[..i][1..] == steps[1..][..i - 1];
      assert known + NamesOf(steps[..i]) == (known + names) + NamesOf(steps[1..][..i - 1]);
    }
  }

  lemma {:induction false} NamesOfIncludes(steps: seq<StepSpec>, i: nat, name: string)
    requires i < |steps| && name in ArtifactNames(steps[i].template.artifacts)
    ensures name in NamesOf(steps)
    decreases i
  {
    if i > 0 {
      NamesOfIncludes(steps[1..], i - 1, name);
    }
  }

  lemma {:induction false} NamesOfFrom(steps: seq<StepSpec>, name: string) returns (i: nat)
    requires name in NamesOf(steps)
    ensures i < |steps| && name in ArtifactNames(steps[i].template.artifacts)
  {
    if name in ArtifactNames(steps[0].template.artifacts) {
      i := 0;
    } else {
      i := NamesOfFrom(steps[1..], name);
      i := i + 1;
    }
  }

  /** Runs of the first steps of a list, each built at least once and with all directories, with the
      main container its builds found. */
  predicate RunsOf(runs: seq<StepRun>, steps: seq<StepSpec>) {
    |runs| <= |steps| && forall i :: 0 <= i < |runs| ==>
      && runs[i].template == steps[i].template && WellBuilt(runs[i])
      && MainContainer(runs[i].template).Ok? && runs[i].mainName == MainContainer(runs[i].template).value.name
  }

  function AfterSteps(m: Copies, runs: seq<StepRun>): Copies
    decreases |runs|
  {
    if runs == [] then m else AfterStep(AfterSteps(m, runs[..|runs| - 1]), runs[|runs| - 1])
  }

  lemma NamedInStep(specs: seq<ArtifactSpec>, a: ArtifactSpec)
    requires a in specs
    ensures a.name in ArtifactNames(specs)
  {
    var j :| 0 <= j < |specs| && specs[j] == a;
    assert specs[j].name in ArtifactNames(specs);
  }

  lemma {:induction false} OtherStep(steps: seq<StepSpec>, i: nat, n: nat, name: string)
    requires Chain(steps, {}) && i < n < |steps| && name in ArtifactNames(steps[i].template.artifacts)
    ensures name !in ArtifactNames(steps[n].template.artifacts)
  {
    ChainAt(steps, {}, n);
    assert steps[..n][i] == steps[i];
    NamesOfIncludes(steps[..n], i, name);
  }

  lemma {:induction false} ChainCopies(steps: seq<StepSpec>, runs: seq<StepRun>, i: nat, a: ArtifactSpec)
    requires Chain(steps, {}) && RunsOf(runs, steps) && i < |runs| && a in runs[i].template.artifacts
    ensures a.name in AfterSteps(map[], runs)
    ensures AfterSteps(map[], runs)[a.name] == Copiers(runs[i], a, runs[i].subtasks)
    decreases |runs|
  {
    var n := |runs| - 1;
    if i == n {
      ChainAt(steps, {}, n);
      StepCopies(AfterSteps(map[], runs[..n]), runs[n], a);
    } else {
      ChainCopies(steps, runs[..n], i, a);
      NamedInStep(runs[i].template.artifacts, a);
      OtherStep(steps, i, n, a.name);
      StepLeaves(AfterSteps(map[], runs[..n]), runs[n], a.name);
    }
  }

  /** In an accepted job, after any number of its steps ran, an artifact of one of them is found exactly
      when some main subtask copied it, which only artifacts of the main container are. */
  lemma {:induction false} ArtifactFoundExactly(spec: JobSpec, runs: seq<StepRun>, i: nat, a: ArtifactSpec)
    requires Accepted(spec) && RunsOf(runs, AllSteps(spec)) && i < |runs| && a in runs[i].template.artifacts
    ensures Found(AfterSteps(map[], runs), a.name) <==>
            a.container == MainContainer(runs[i].template).value.name
            && exists k :: 0 <= k < |runs[i].subtasks| && CopiedBy(runs[i], a, runs[i].subtasks[k])
  {
    AcceptedChain(spec);
    ChainCopies(AllSteps(spec), runs, i, a);
    var copiers := Copiers(runs[i], a, runs[i].subtasks);
    if copiers != {} {
      var c :| c in copiers;
      var k :| 0 <= k < |runs[i].subtasks| && CopiedBy(runs[i], a, runs[i].subtasks[k]) && runs[i].subtasks[k].container == c;
      CopiedIsMain(runs[i], a, runs[i].subtasks[k]);
    }
    if k :| 0 <= k < |runs[i].subtasks| && CopiedBy(runs[i], a, runs[i].subtasks[k]) {
      assert runs[i].subtasks[k].container in copiers;
    }
  }

  /** Some main subtask of the step copied all it had to. */
  predicate SomeCompleted(s: StepRun) {
    exists k :: 0 <= k < |s.subtasks| && s.subtasks[k].done >= |ArtifactsOf(s.template.artifacts, s.mainName)|
  }

  /** Once a main subtask of its step finished without a copy error, an artifact of an accepted job is
      found exactly when the job asks for it from the main container: the artifacts of other containers
      are registered and never copied. */
  lemma {:induction false} ArtifactFoundIfMain(spec: JobSpec, runs: seq<StepRun>, i: nat, a: ArtifactSpec)
    requires Accepted(spec) && RunsOf(runs, AllSteps(spec)) && i < |runs| && a in runs[i].template.artifacts
    requires SomeCompleted(runs[i])
    ensures Found(AfterSteps(map[], runs), a.name) <==> a.container == MainContainer(runs[i].template).value.name
  {
    ArtifactFoundExactly(spec, runs, i, a);
    var s := runs[i];
    var k :| 0 <= k < |s.subtasks| && s.subtasks[k].done >= |ArtifactsOf(s.template.artifacts, s.mainName)|;
    CompletedCopies(s, s.subtasks[k], a);
  }

  lemma CompletedCopies(s: StepRun, sub: SubTaskCopy, a: ArtifactSpec)
    requires a in s.template.artifacts && sub.done >= |ArtifactsOf(s.template.artifacts, s.mainName)|
    ensures CopiedBy(s, a, sub) <==> a.container == s.mainName
  {
    var artifacts := ArtifactsOf(s.template.artifacts, s.mainName);
    assert CopiedSpecs(s, sub) == artifacts;
    ArtifactsOfContainer(s.template.artifacts, s.mainName, a);
  }

  /** Every artifact the next step of an accepted job wants belongs to an earlier step, so that the
      condition above decides each lookup of its build. */
  lemma {:induction false} WantedArtifactIsEarlier(spec: JobSpec, runs: seq<StepRun>, main: Container, key: Option<KeySpec>, name: string)
    returns (i: nat, a: ArtifactSpec)
    requires Accepted(spec) && RunsOf(runs, AllSteps(spec)) && |runs| < |AllSteps(spec)|
    requires Artifact(name) in Wanted(BuildOf(AllSteps(spec)[|runs|].template, main, key), false)
    ensures i < |runs| && a in runs[i].template.artifacts && a.name == name
  {
    var steps, p := AllSteps(spec), |runs|;
    var t := steps[p].template;
    AcceptedChain(spec);
    ChainAt(steps, {}, p);
    var v := WantedDeclared(t, main, key, false, Artifact(name));
    assert name in NamesOf(steps[..p]);
    i := NamesOfFrom(steps[..p], name);
    assert steps[..p][i] == steps[i];
    var specs := runs[i].template.artifacts;
    var j :| 0 <= j < |specs| && specs[j].name == name;
    a := specs[j];
  }
}
