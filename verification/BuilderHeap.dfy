/** The build steps of api/v1/task_builder.go over shared arrays: a container's volume mounts are a
    slice, copies of the container struct share it, and newTaskContainer rewrites it in place. */
module BuilderHeap {
  import opened Wrappers
  import opened PodSpecs
  import opened Builder
  import opened Names

  datatype HeapContainer = HeapContainer(name: string, image: string, env: seq<EnvVar>, mounts: array<Mount>) {
    function Value(): Container
      reads mounts
    {
      Container(name, image, env, mounts[..])
    }
  }

  function Arrays(cs: seq<HeapContainer>): set<array<Mount>> {
    set i | 0 <= i < |cs| :: cs[i].mounts
  }

  function Values(cs: seq<HeapContainer>): (vs: seq<Container>)
    reads Arrays(cs)
    ensures |vs| == |cs|
    ensures forall i :: 0 <= i < |cs| ==> vs[i] == cs[i].Value()
  {
    seq(|cs|, i requires 0 <= i < |cs| reads Arrays(cs) => cs[i].Value())
  }

  /** No two containers share their mounts. */
  predicate Separate(cs: seq<HeapContainer>) {
    forall i, j :: 0 <= i < j < |cs| ==> cs[i].mounts != cs[j].mounts
  }

  datatype HeapTemplate = HeapTemplate(
    main: string, init: seq<HeapContainer>, containers: seq<HeapContainer>, finalizer: HeapContainer,
    volumes: seq<Volume>, artifacts: seq<ArtifactSpec>)
  {
    function Objects(): set<array<Mount>> {
      Arrays(init) + Arrays(containers) + {finalizer.mounts}
    }

    function Value(): Template
      reads Objects()
    {
      Template(main, Values(init), Values(containers), finalizer.Value(), volumes, artifacts)
    }

    /** The finalizer has mounts of its own, as after decoding a job. */
    predicate Valid() {
      finalizer.mounts !in Arrays(init) + Arrays(containers)
    }
  }

  /** Container.DeepCopy, as far as the mounts are concerned. */
  method DeepCopy(c: HeapContainer) returns (d: HeapContainer)
    ensures fresh(d.mounts) && d.Value() == c.Value()
  {
    var mounts := new Mount[c.mounts.Length](i requires 0 <= i < c.mounts.Length reads c.mounts => c.mounts[i]);
    d := c.(mounts := mounts);
    assert mounts[..] == c.mounts[..];
  }

  method DeepCopyAll(cs: seq<HeapContainer>) returns (ds: seq<HeapContainer>)
    ensures |ds| == |cs| && Separate(ds) && Values(ds) == old(Values(cs))
    ensures forall i :: 0 <= i < |ds| ==> fresh(ds[i].mounts)
  {
    ds := [];
    for i := 0 to |cs|
      invariant |ds| == i && Separate(ds)
      invariant forall j :: 0 <= j < i ==> fresh(ds[j].mounts)
      invariant forall j :: 0 <= j < i ==> ds[j].Value() == old(cs[j].Value())
    {
      var d := DeepCopy(cs[i]);
      ds := ds + [d];
    }
  }

  method KeyCopies(main: HeapContainer, k: KeySpec) returns (copies: seq<HeapContainer>)
    ensures Separate(copies) && forall i :: 0 <= i < |copies| ==> fresh(copies[i].mounts)
    ensures Values(copies) == KeyContainers(old(main.Value()), k)
  {
    copies := [];
    for idx := 0 to |k.key.keys|
      invariant |copies| == idx && Separate(copies)
      invariant forall j :: 0 <= j < idx ==> fresh(copies[j].mounts)
      invariant forall j :: 0 <= j < idx ==> copies[j].Value() == KeyContainer(old(main.Value()), k, j)
    {
      var container := DeepCopy(main);
      container := container.(name := ContainerName(main.name, k.key.concurrentIdx, idx),
                              env := container.env + [EnvVar(k.env, k.key.keys[idx])]);
      copies := copies + [container];
    }
  }

  method WithoutMain(cs: seq<HeapContainer>, mainName: string) returns (sideCars: seq<HeapContainer>)
    requires Separate(cs)
    ensures Separate(sideCars) && forall c :: c in sideCars ==> c in cs
    ensures Values(sideCars) == SideCars(old(Values(cs)), mainName)
  {
    sideCars := [];
    ghost var vs := Values(cs);
    for i := 0 to |cs|
      invariant Separate(sideCars)
      invariant forall c :: c in sideCars ==> c in cs[..i]
      invariant Values(sideCars) == SideCars(vs[..i], mainName)
    {
      SideCarsNext(vs, i, mainName);
      if cs[i].name == mainName {
        continue;
      }
      forall j | 0 <= j < |sideCars| ensures sideCars[j].mounts != cs[i].mounts {
        assert sideCars[j] in cs[..i];
      }
      ghost var before := Values(sideCars);
      sideCars := sideCars + [cs[i]];
      assert Values(sideCars) == before + [cs[i].Value()];
    }
    assert vs[..|cs|] == vs;
  }

  /** addContainersByStrategyKey. */
  method AddContainersByStrategyKey(cs: seq<HeapContainer>, main: HeapContainer, key: Option<KeySpec>)
    returns (ds: seq<HeapContainer>)
    requires Separate(cs)
    ensures Separate(ds) && forall i :: 0 <= i < |ds| ==> ds[i] in cs || fresh(ds[i].mounts)
    ensures Values(ds) == PodContainers(old(Values(cs)), old(main.Value()), key)
  {
    if key.None? {
      return cs;
    }
    var sideCars := WithoutMain(cs, main.name);
    ghost var svs := Values(sideCars);
    var copies := KeyCopies(main, key.value);
    ds := sideCars + copies;
    assert Values(sideCars) == svs;
    assert Values(ds) == Values(sideCars) + Values(copies);
  }

  lemma {:induction false} SideCarsNext(cs: seq<Container>, i: nat, name: string)
    requires i < |cs|
    ensures SideCars(cs[..i + 1], name) == SideCars(cs[..i], name) + if cs[i].name == name then [] else [cs[i]]
  {
    if i > 0 {
      SideCarsNext(cs[1..], i - 1, name);
      assert cs[..i + 1][1..] == cs[1..][..i] && cs[..i][1..] == cs[1..][..i - 1];
    }
  }

  /** A map lookup with Go's zero value. */
  function ByName(m: map<string, Volume>, name: string): Volume {
    if name in m then m[name] else ZERO_VOLUME
  }

  method VolumesByName(volumes: seq<Volume>) returns (volumeNameToVolume: map<string, Volume>)
    ensures forall name :: ByName(volumeNameToVolume, name) == Lookup(volumes, name)
  {
    volumeNameToVolume := map[];
    for i := 0 to |volumes|
      invariant forall name :: ByName(volumeNameToVolume, name) == Lookup(volumes[..i], name)
    {
      assert volumes[..i + 1][..i] == volumes[..i];
      volumeNameToVolume := volumeNameToVolume[volumes[i].name := volumes[i]];
    }
    assert volumes[..|volumes|] == volumes;
  }

  lemma PlannedNext(mounts: seq<Mount>, volumes: seq<Volume>, idx: nat)
    requires idx < |mounts|
    ensures Planned(mounts[..idx + 1], volumes)
            == AddMount(Planned(mounts[..idx], volumes), Lookup(volumes, mounts[idx].name), mounts[idx].path)
  {
    assert mounts[..idx + 1][..idx] == mounts[..idx];
  }

  /** newTaskContainer: fills the plan and rewrites the container's mounts in place. */
  method NewTaskContainer(c: HeapContainer, volumes: seq<Volume>) returns (plan: Plan)
    modifies c.mounts
    ensures c.mounts[..] == Rewritten(old(c.mounts[..]), volumes)
    ensures plan == Planned(old(c.mounts[..]), volumes)
  {
    var volumeNameToVolume := VolumesByName(volumes);
    plan := EmptyPlan;
    ghost var mounts := c.mounts[..];
    for idx := 0 to c.mounts.Length
      invariant plan == Planned(mounts[..idx], volumes)
      invariant forall j :: 0 <= j < idx ==> c.mounts[j] == RewriteMount(mounts[j], volumes)
      invariant forall j :: idx <= j < c.mounts.Length ==> c.mounts[j] == mounts[j]
    {
      var vm := c.mounts[idx];
      var volume := ByName(volumeNameToVolume, vm.name);
      PlannedNext(mounts, volumes, idx);
      plan := AddMount(plan, volume, vm.path);
      var kind := KindOf(volume.source);
      if !kind.PlainKind? {
        c.mounts[idx] := vm.(path := Staging(kind, volume.name));
      }
    }
    assert mounts[..|mounts|] == mounts;
  }

  /** newTaskContainerGroup. */
  method NewTaskContainerGroup(cs: seq<HeapContainer>, volumes: seq<Volume>) returns (g: Group)
    requires Separate(cs)
    modifies Arrays(cs)
    ensures g == GroupOf(old(Values(cs)), volumes)
    ensures Values(cs) == RewriteAll(old(Values(cs)), volumes)
  {
    g := map[];
    ghost var vs := Values(cs);
    for i := 0 to |cs|
      invariant g == GroupOf(vs[..i], volumes)
      invariant forall j :: 0 <= j < i ==> cs[j].mounts[..] == Rewritten(vs[j].mounts, volumes)
      invariant forall j :: i <= j < |cs| ==> cs[j].mounts[..] == vs[j].mounts
    {
      var plan := NewTaskContainer(cs[i], volumes);
      g := g[cs[i].name := plan];
      GroupNext(vs, volumes, i);
    }
    assert vs[..|cs|] == vs;
  }

  lemma GroupNext(cs: seq<Container>, volumes: seq<Volume>, i: nat)
    requires i < |cs|
    ensures GroupOf(cs[..i + 1], volumes) == GroupOf(cs[..i], volumes)[cs[i].name := Planned(cs[i].mounts, volumes)]
  {
    assert cs[..i + 1][..i] == cs[..i];
  }

  /** A built job: the containers of its pod spec share their mounts with the build context. */
  datatype HeapBuild = HeapBuild(
    initContainers: seq<HeapContainer>, containers: seq<HeapContainer>,
    init: Group, main: Group, finalizers: Group)
  {
    function Value(): Built
      reads Arrays(initContainers), Arrays(containers)
    {
      Built(Values(initContainers), Values(containers), init, main, finalizers)
    }
  }

  /** The deep copy of the template's containers, with the main container replaced per key. */
  method CopyContainers(t: HeapTemplate, main: HeapContainer, key: Option<KeySpec>)
    returns (initContainers: seq<HeapContainer>, containers: seq<HeapContainer>)
    ensures Separate(initContainers) && Separate(containers)
    ensures fresh(Arrays(initContainers)) && fresh(Arrays(containers))
    ensures Arrays(initContainers) !! Arrays(containers)
    ensures Values(initContainers) == old(Values(t.init))
    ensures Values(containers) == PodContainers(old(Values(t.containers)), old(main.Value()), key)
  {
    initContainers := DeepCopyAll(t.init);
    ghost var inits := Values(initContainers);
    assert Values(t.containers) == old(Values(t.containers));
    var copies := DeepCopyAll(t.containers);
    assert main.Value() == old(main.Value());
    containers := AddContainersByStrategyKey(copies, main, key);
    assert Values(initContainers) == inits;
    forall i, j | 0 <= i < |initContainers| && 0 <= j < |containers|
      ensures initContainers[i].mounts != containers[j].mounts
    {
      assert containers[j] in copies ==> exists h :: 0 <= h < |copies| && copies[h] == containers[j];
    }
  }

  /** The part of buildJob that works on copies only: it changes nothing that existed before. */
  method BuildPod(t: HeapTemplate, main: HeapContainer, key: Option<KeySpec>) returns (b: HeapBuild)
    ensures fresh(Arrays(b.initContainers)) && fresh(Arrays(b.containers))
    ensures b.Value() == BuildOf(old(t.Value()), old(main.Value()), key).(finalizers := map[])
  {
    var initContainers, containers := CopyContainers(t, main, key);
    ghost var cs := Values(containers);
    var init := NewTaskContainerGroup(initContainers, t.volumes);
    assert Values(containers) == cs;
    ghost var staged := Values(initContainers);
    var group := NewTaskContainerGroup(containers, t.volumes);
    assert Values(initContainers) == staged;
    b := HeapBuild(initContainers, containers, init, group, map[]);
  }

  /** buildJob up to the pod spec.  The template's init and ordinary containers keep their mounts;
      those of its finalizer are rewritten for good. */
  method BuildJob(t: HeapTemplate, main: HeapContainer, key: Option<KeySpec>) returns (b: HeapBuild)
    requires t.Valid() && main.mounts in Arrays(t.containers)
    modifies t.finalizer.mounts
    ensures fresh(Arrays(b.initContainers)) && fresh(Arrays(b.containers))
    ensures b.Value() == BuildOf(old(t.Value()), old(main.Value()), key)
    ensures t.Value() == AfterBuild(old(t.Value())) && main.Value() == old(main.Value())
  {
    var pod := BuildPod(t, main, key);
    var finalizers := FinalizerGroup(t, main, pod);
    b := pod.(finalizers := finalizers);
  }

  /** The finalizer is not copied, so its mounts are rewritten in the template itself; the pod built
      before shares nothing with it. */
  method FinalizerGroup(t: HeapTemplate, ghost main: HeapContainer, ghost pod: HeapBuild) returns (g: Group)
    requires t.Valid() && main.mounts in Arrays(t.containers)
    requires t.finalizer.mounts !in Arrays(pod.initContainers) + Arrays(pod.containers)
    modifies t.finalizer.mounts
    ensures pod.Value() == old(pod.Value()) && main.Value() == old(main.Value())
    ensures g == GroupOf([old(t.finalizer.Value())], t.volumes)
    ensures t.Value() == AfterBuild(old(t.Value()))
  {
    ghost var inits, mains, final := Values(t.init), Values(t.containers), t.finalizer.Value();
    ghost var podInits, podContainers := Values(pod.initContainers), Values(pod.containers);
    assert Values([t.finalizer]) == [final];
    g := NewTaskContainerGroup([t.finalizer], t.volumes);
    assert t.finalizer.Value() == Values([t.finalizer])[0];
    assert Values(t.init) == inits && Values(t.containers) == mains;
    assert Values(pod.initContainers) == podInits && Values(pod.containers) == podContainers;
  }

  /** Build number i is that of a template after i builds, and its pod that of a first build. */
  predicate BuiltAfter(t: Template, i: nat, main: Container, key: Option<KeySpec>, b: Built) {
    && b == BuildOf(AfterBuilds(t, i), main, key)
    && b == BuildOf(t, main, key).(finalizers := b.finalizers)
  }

  lemma NextBuiltAfter(t: Template, i: nat, main: Container, key: Option<KeySpec>)
    ensures BuiltAfter(t, i, main, key, BuildOf(AfterBuilds(t, i), main, key))
  {
    RebuildSamePod(t, i, main, key);
  }

  predicate BuiltInTurn(t: Template, main: Container, keys: seq<Option<KeySpec>>, builds: seq<Built>) {
    |builds| <= |keys| && forall i :: 0 <= i < |builds| ==> BuiltAfter(t, i, main, keys[i], builds[i])
  }

  lemma BuiltSnoc(t: Template, main: Container, keys: seq<Option<KeySpec>>, builds: seq<Built>, b: Built)
    requires |builds| < |keys| && BuiltInTurn(t, main, keys, builds)
    requires BuiltAfter(t, |builds|, main, keys[|builds|], b)
    ensures BuiltInTurn(t, main, keys, builds + [b])
  {
  }

  /** The build after i builds. */
  method BuildNext(t: HeapTemplate, main: HeapContainer, key: Option<KeySpec>, ghost first: Template, ghost i: nat)
    returns (b: Built)
    requires t.Valid() && main.mounts in Arrays(t.containers) && t.Value() == AfterBuilds(first, i)
    modifies t.finalizer.mounts
    ensures BuiltAfter(first, i, old(main.Value()), key, b)
    ensures t.Value() == AfterBuilds(first, i + 1) && main.Value() == old(main.Value())
  {
    NextBuiltAfter(first, i, main.Value(), key);
    var job := BuildJob(t, main, key);
    b := job.Value();
  }

  /** Any number of builds from one template, as the schedule and the retries make them.  Only the
      finalizer of the template changes from build to build; whatever was built before, each build's
      pod and the plans of its init and ordinary containers are those of a first build. */
  method BuildAll(t: HeapTemplate, main: HeapContainer, keys: seq<Option<KeySpec>>) returns (builds: seq<Built>)
    requires t.Valid() && main.mounts in Arrays(t.containers)
    modifies t.finalizer.mounts
    ensures |builds| == |keys| && BuiltInTurn(old(t.Value()), old(main.Value()), keys, builds)
    ensures t.Value() == AfterBuilds(old(t.Value()), |keys|)
  {
    builds := [];
    ghost var tv, mv := t.Value(), main.Value();
    for i := 0 to |keys|
      invariant |builds| == i && BuiltInTurn(tv, mv, keys, builds)
      invariant t.Value() == AfterBuilds(tv, i) && main.Value() == mv
    {
      var b := BuildNext(t, main, keys[i], tv, i);
      BuiltSnoc(tv, mv, keys, builds, b);
      builds := builds + [b];
    }
  }
}
