/** Templates of a step and the plan made for one container's volume mounts
    (api/v1/types.go, newTaskContainer in api/v1/task_builder.go).

    A path is the sequence of its elements, so filepath.Join appends; volume names are single clean
    path elements.  The six name maps of a TaskContainer are two maps here, keyed by the kind of
    resource and its name. */
module PodSpecs {
  import opened Wrappers

  type Path = seq<string>

  datatype Resource = Repo(name: string) | Artifact(name: string) | Token(name: string)

  /** Each source is optional; `plain` stands for the embedded Kubernetes source. */
  datatype VolumeSource = VolumeSource(
    repo: Option<string>, artifact: Option<string>, token: Option<string>,
    log: bool, report: Option<string>, plain: string)

  datatype Volume = Volume(name: string, source: VolumeSource)

  datatype Kind = ResourceKind(resource: Resource) | LogKind | ReportKind | PlainKind(plain: string)

  /** The order in which the sources of a volume are looked at. */
  function KindOf(s: VolumeSource): Kind {
    if s.repo.Some? then ResourceKind(Repo(s.repo.value))
    else if s.artifact.Some? then ResourceKind(Artifact(s.artifact.value))
    else if s.token.Some? then ResourceKind(Token(s.token.value))
    else if s.log then LogKind
    else if s.report.Some? then ReportKind
    else PlainKind(s.plain)
  }

  datatype Mount = Mount(name: string, path: Path)

  datatype EnvVar = EnvVar(name: string, value: string)

  datatype Container = Container(name: string, image: string, env: seq<EnvVar>, mounts: seq<Mount>)

  datatype ArtifactSpec = ArtifactSpec(name: string, container: string, path: Path)

  datatype Template = Template(
    main: string, init: seq<Container>, containers: seq<Container>, finalizer: Container,
    volumes: seq<Volume>, artifacts: seq<ArtifactSpec>)

  /** Go's zero value, which a map lookup gives for an undeclared name. */
  const ZERO_VOLUME: Volume := Volume("", VolumeSource(None, None, None, false, None, ""))

  /** The volume a name stands for: the last declared one, or Go's zero volume. */
  function Lookup(volumes: seq<Volume>, name: string): Volume {
    if volumes == [] then ZERO_VOLUME
    else if volumes[|volumes| - 1].name == name then volumes[|volumes| - 1]
    else Lookup(volumes[..|volumes| - 1], name)
  }

  predicate Declared(volumes: seq<Volume>, name: string) {
    exists i :: 0 <= i < |volumes| && volumes[i].name == name
  }

  lemma {:induction false} LookupDeclared(volumes: seq<Volume>, name: string)
    ensures Declared(volumes, name) ==> Lookup(volumes, name) in volumes && Lookup(volumes, name).name == name
    ensures !Declared(volumes, name) ==> Lookup(volumes, name).name == "" && KindOf(Lookup(volumes, name).source) == PlainKind("")
  {
    if volumes != [] {
      var init := volumes[..|volumes| - 1];
      LookupDeclared(init, name);
      if Declared(volumes, name) && volumes[|volumes| - 1].name != name {
        var i :| 0 <= i < |volumes| && volumes[i].name == name;
        assert init[i].name == name;
      }
    }
  }

  /** Of several volumes of one name the last counts. */
  lemma {:induction false} LookupLast(volumes: seq<Volume>, i: nat)
    requires i < |volumes| && forall j :: i < j < |volumes| ==> volumes[j].name != volumes[i].name
    ensures Lookup(volumes, volumes[i].name) == volumes[i]
    decreases |volumes|
  {
    var n := |volumes| - 1;
    if i < n {
      LookupLast(volumes[..n], i);
    }
  }

  const LOG_MOUNT: Path := ["tmp", "log"]
  const LOG_MOUNT_FILE: Path := ["tmp", "log", "kubetest.log"]
  const REPORT_MOUNT: Path := ["tmp", "report"]

  /** Where a volume of a given kind is mounted instead of the path the template asks for. */
  function Staging(kind: Kind, volumeName: string): Path {
    match kind
    case ResourceKind(Repo(_)) => ["tmp", "repo-archive", volumeName]
    case ResourceKind(Artifact(_)) => ["tmp", "artifact-archive", volumeName]
    case ResourceKind(Token(_)) => ["tmp", "token", volumeName]
    case LogKind => LOG_MOUNT
    case ReportKind => REPORT_MOUNT
    case PlainKind(_) => []
  }

  datatype PodVolumeSource = EmptyDir | Given(plain: string)

  datatype PodVolume = PodVolume(name: string, source: PodVolumeSource)

  datatype Plan = Plan(
    staging: map<Resource, Path>, org: map<Resource, Path>,
    logOrg: seq<Path>, reportOrg: seq<Path>,
    podVolumes: map<string, PodVolume>, preInitMounts: map<string, Mount>)

  const EmptyPlan: Plan := Plan(map[], map[], [], [], map[], map[])

  /** One round of the loop over the volume mounts. */
  function AddMount(p: Plan, v: Volume, path: Path): Plan {
    var kind := KindOf(v.source);
    var staged := Staging(kind, v.name);
    match kind
    case ResourceKind(r) =>
      p.(staging := p.staging[r := staged], org := p.org[r := path],
         podVolumes := p.podVolumes[v.name := PodVolume(v.name, EmptyDir)],
         preInitMounts := p.preInitMounts[v.name := Mount(v.name, staged)])
    case LogKind =>
      p.(logOrg := p.logOrg + [path],
         podVolumes := p.podVolumes[v.name := PodVolume(v.name, EmptyDir)],
         preInitMounts := p.preInitMounts[v.name := Mount(v.name, staged)])
    case ReportKind =>
      p.(reportOrg := p.reportOrg + [path],
         podVolumes := p.podVolumes[v.name := PodVolume(v.name, EmptyDir)],
         preInitMounts := p.preInitMounts[v.name := Mount(v.name, staged)])
    case PlainKind(plain) =>
      p.(podVolumes := p.podVolumes[v.name := PodVolume(v.name, Given(plain))])
  }

  /** The plan for a container's mounts. */
  function Planned(mounts: seq<Mount>, volumes: seq<Volume>): Plan {
    if mounts == [] then EmptyPlan
    else
      var m := mounts[|mounts| - 1];
      AddMount(Planned(mounts[..|mounts| - 1], volumes), Lookup(volumes, m.name), m.path)
  }

  function RewriteMount(m: Mount, volumes: seq<Volume>): Mount {
    var v := Lookup(volumes, m.name);
    var kind := KindOf(v.source);
    if kind.PlainKind? then m else m.(path := Staging(kind, v.name))
  }

  /** The mounts as the loop leaves them in the container. */
  function Rewritten(mounts: seq<Mount>, volumes: seq<Volume>): (r: seq<Mount>)
    ensures |r| == |mounts|
  {
    seq(|mounts|, i requires 0 <= i < |mounts| => RewriteMount(mounts[i], volumes))
  }

  /*** What a plan says. ***/

  function KindAt(mounts: seq<Mount>, volumes: seq<Volume>, i: nat): Kind
    requires i < |mounts|
  {
    KindOf(Lookup(volumes, mounts[i].name).source)
  }

  predicate MountsResource(mounts: seq<Mount>, volumes: seq<Volume>, r: Resource) {
    exists i :: 0 <= i < |mounts| && KindAt(mounts, volumes, i) == ResourceKind(r)
  }

  /** Mount i is the last one of its resource in this container. */
  predicate LastOf(mounts: seq<Mount>, volumes: seq<Volume>, i: nat, r: Resource) {
    i < |mounts| && KindAt(mounts, volumes, i) == ResourceKind(r)
    && forall j :: i < j < |mounts| ==> KindAt(mounts, volumes, j) != ResourceKind(r)
  }

  /** A plan knows exactly the mounted resources, and the original path of each. */
  lemma {:induction false} PlanKeys(mounts: seq<Mount>, volumes: seq<Volume>, r: Resource)
    ensures r in Planned(mounts, volumes).staging <==> MountsResource(mounts, volumes, r)
    ensures r in Planned(mounts, volumes).org <==> MountsResource(mounts, volumes, r)
  {
    if mounts != [] {
      var n := |mounts| - 1;
      var init := mounts[..n];
      PlanKeys(init, volumes, r);
      if MountsResource(init, volumes, r) {
        var i :| 0 <= i < |init| && KindAt(init, volumes, i) == ResourceKind(r);
        assert KindAt(mounts, volumes, i) == ResourceKind(r);
      }
      if i :| 0 <= i < n && KindAt(mounts, volumes, i) == ResourceKind(r) {
        assert KindAt(init, volumes, i) == ResourceKind(r);
      }
      assert KindAt(mounts, volumes, n) == KindOf(Lookup(volumes, mounts[n].name).source);
    }
  }

  /** Both paths of a resource come from its last mount, so the original path of any mount is
      recoverable exactly when no later mount of the container names the same resource. */
  lemma {:induction false} PlanLast(mounts: seq<Mount>, volumes: seq<Volume>, i: nat, r: Resource)
    requires LastOf(mounts, volumes, i, r)
    ensures var p := Planned(mounts, volumes);
      && r in p.staging && r in p.org
      && p.org[r] == mounts[i].path
      && p.staging[r] == Staging(ResourceKind(r), Lookup(volumes, mounts[i].name).name)
      && Rewritten(mounts, volumes)[i].path == p.staging[r]
    decreases |mounts|
  {
    var n := |mounts| - 1;
    var init := mounts[..n];
    if i < n {
      assert KindAt(mounts, volumes, n) != ResourceKind(r);
      forall j | 0 <= j < n ensures KindAt(init, volumes, j) == KindAt(mounts, volumes, j) {
      }
      PlanLast(init, volumes, i, r);
    }
  }

  lemma {:induction false} LastExists(mounts: seq<Mount>, volumes: seq<Volume>, r: Resource) returns (i: nat)
    requires MountsResource(mounts, volumes, r)
    ensures LastOf(mounts, volumes, i, r)
  {
    var n := |mounts| - 1;
    if KindAt(mounts, volumes, n) == ResourceKind(r) {
      i := n;
    } else {
      var init := mounts[..n];
      var j :| 0 <= j < |mounts| && KindAt(mounts, volumes, j) == ResourceKind(r);
      assert KindAt(init, volumes, j) == ResourceKind(r);
      i := LastExists(init, volumes, r);
      forall k | i < k < |mounts| ensures KindAt(mounts, volumes, k) != ResourceKind(r) {
        assert k < n ==> KindAt(init, volumes, k) == KindAt(mounts, volumes, k);
      }
      assert KindAt(init, volumes, i) == KindAt(mounts, volumes, i);
    }
  }

  /** Some mount of this kind asks for the path. */
  predicate MountedAt(mounts: seq<Mount>, volumes: seq<Volume>, kind: Kind, path: Path) {
    exists i :: 0 <= i < |mounts| && KindAt(mounts, volumes, i) == kind && mounts[i].path == path
  }

  lemma MountedSnoc(mounts: seq<Mount>, volumes: seq<Volume>, kind: Kind, path: Path)
    requires mounts != []
    ensures var n := |mounts| - 1;
      MountedAt(mounts, volumes, kind, path) <==>
      MountedAt(mounts[..n], volumes, kind, path) || (KindAt(mounts, volumes, n) == kind && mounts[n].path == path)
  {
    var n := |mounts| - 1;
    var init := mounts[..n];
    if i :| 0 <= i < n && KindAt(init, volumes, i) == kind && init[i].path == path {
      assert KindAt(mounts, volumes, i) == kind && mounts[i].path == path;
    }
    if i :| 0 <= i < n && KindAt(mounts, volumes, i) == kind && mounts[i].path == path {
      assert KindAt(init, volumes, i) == kind && init[i].path == path;
    }
  }

  /** The log and the report are copied to exactly the paths their mounts ask for. */
  lemma {:induction false} PlanFiles(mounts: seq<Mount>, volumes: seq<Volume>, path: Path)
    ensures path in Planned(mounts, volumes).logOrg <==> MountedAt(mounts, volumes, LogKind, path)
    ensures path in Planned(mounts, volumes).reportOrg <==> MountedAt(mounts, volumes, ReportKind, path)
  {
    if mounts != [] {
      var n := |mounts| - 1;
      PlanFiles(mounts[..n], volumes, path);
      MountedSnoc(mounts, volumes, LogKind, path);
      MountedSnoc(mounts, volumes, ReportKind, path);
      AddMountFiles(Planned(mounts[..n], volumes), Lookup(volumes, mounts[n].name), mounts[n].path, path);
    }
  }

  lemma AddMountFiles(p: Plan, v: Volume, path: Path, x: Path)
    ensures var p', kind := AddMount(p, v, path), KindOf(v.source);
      && (x in p'.logOrg <==> x in p.logOrg || (kind == LogKind && x == path))
      && (x in p'.reportOrg <==> x in p.reportOrg || (kind == ReportKind && x == path))
  {
  }

  /** The volume a pod gets under a volume name. */
  function PodVolumeOf(volumes: seq<Volume>, name: string): PodVolume {
    match KindOf(Lookup(volumes, name).source)
    case PlainKind(plain) => PodVolume(Lookup(volumes, name).name, Given(plain))
    case _ => PodVolume(Lookup(volumes, name).name, EmptyDir)
  }

  predicate MountsVolume(mounts: seq<Mount>, volumes: seq<Volume>, name: string) {
    exists i :: 0 <= i < |mounts| && Lookup(volumes, mounts[i].name).name == name
  }

  predicate MountsTestVolume(mounts: seq<Mount>, volumes: seq<Volume>, name: string) {
    exists i :: 0 <= i < |mounts| && Lookup(volumes, mounts[i].name).name == name && !KindAt(mounts, volumes, i).PlainKind?
  }

  /** No volume is declared under the empty name; the validator rejects such a volume. */
  predicate NamedVolumes(volumes: seq<Volume>) {
    !Declared(volumes, "")
  }

  lemma LookupOfLookup(volumes: seq<Volume>, name: string)
    requires NamedVolumes(volumes)
    ensures Lookup(volumes, Lookup(volumes, name).name) == Lookup(volumes, name)
  {
    LookupDeclared(volumes, name);
    if !Declared(volumes, name) {
      NoneDeclared(volumes, name);
      NoneDeclared(volumes, "");
    }
  }

  lemma {:induction false} NoneDeclared(volumes: seq<Volume>, name: string)
    requires !Declared(volumes, name)
    ensures Lookup(volumes, name) == ZERO_VOLUME
  {
    if volumes != [] {
      var init := volumes[..|volumes| - 1];
      assert volumes[|volumes| - 1].name != name;
      forall i | 0 <= i < |init| ensures init[i].name != name {
        assert volumes[i].name != name;
      }
      NoneDeclared(init, name);
    }
  }

  /** What one mount adds to the pod volumes and preinit mounts. */
  lemma AddMountVolumes(p: Plan, v: Volume, path: Path, name: string)
    ensures var p', kind := AddMount(p, v, path), KindOf(v.source);
      && (name in p'.podVolumes <==> name in p.podVolumes || v.name == name)
      && (name in p'.preInitMounts <==> name in p.preInitMounts || (v.name == name && !kind.PlainKind?))
      && (v.name == name ==>
            p'.podVolumes[name] == PodVolume(name, if kind.PlainKind? then Given(kind.plain) else EmptyDir))
      && (v.name == name && !kind.PlainKind? ==> p'.preInitMounts[name] == Mount(name, Staging(kind, name)))
      && (v.name != name && name in p.podVolumes ==> p'.podVolumes[name] == p.podVolumes[name])
      && (name in p.preInitMounts && (v.name != name || kind.PlainKind?) ==>
            p'.preInitMounts[name] == p.preInitMounts[name])
  {
  }

  predicate SameStaging(p: Plan, p': Plan) {
    p'.staging == p.staging && p'.podVolumes == p.podVolumes && p'.preInitMounts == p.preInitMounts
  }

  lemma AddMountSame(p: Plan, p': Plan, v: Volume, path: Path, path': Path)
    requires SameStaging(p, p')
    ensures SameStaging(AddMount(p, v, path), AddMount(p', v, path'))
  {
  }

  /** Pod volumes and preinit mounts of a container: exactly the volumes it mounts, and the volume
      under a name is the same whichever container mounts it. */
  lemma {:induction false} PlanVolumes(mounts: seq<Mount>, volumes: seq<Volume>, name: string)
    requires NamedVolumes(volumes)
    ensures var p := Planned(mounts, volumes);
      && (name in p.podVolumes <==> MountsVolume(mounts, volumes, name))
      && (name in p.podVolumes ==> p.podVolumes[name] == PodVolumeOf(volumes, name))
      && (name in p.preInitMounts <==> MountsTestVolume(mounts, volumes, name))
      && (name in p.preInitMounts ==>
            p.preInitMounts[name] == Mount(name, Staging(KindOf(Lookup(volumes, name).source), name)))
  {
    if mounts != [] {
      var n := |mounts| - 1;
      var init := mounts[..n];
      PlanVolumes(init, volumes, name);
      LookupOfLookup(volumes, mounts[n].name);
      AddMountVolumes(Planned(init, volumes), Lookup(volumes, mounts[n].name), mounts[n].path, name);
      MountsVolumeStep(mounts, volumes, name);
    }
  }

  lemma MountsVolumeStep(mounts: seq<Mount>, volumes: seq<Volume>, name: string)
    requires mounts != []
    ensures var n := |mounts| - 1; var last := Lookup(volumes, mounts[n].name).name == name;
      && (MountsVolume(mounts, volumes, name) <==> MountsVolume(mounts[..n], volumes, name) || last)
      && (MountsTestVolume(mounts, volumes, name) <==>
          MountsTestVolume(mounts[..n], volumes, name) || (last && !KindAt(mounts, volumes, n).PlainKind?))
  {
    var n := |mounts| - 1;
    var init := mounts[..n];
    forall i | 0 <= i < n ensures init[i] == mounts[i] && KindAt(init, volumes, i) == KindAt(mounts, volumes, i) {
    }
    if MountsVolume(init, volumes, name) {
      var i :| 0 <= i < |init| && Lookup(volumes, init[i].name).name == name;
      assert Lookup(volumes, mounts[i].name).name == name;
    }
    if MountsTestVolume(init, volumes, name) {
      var i :| 0 <= i < |init| && Lookup(volumes, init[i].name).name == name && !KindAt(init, volumes, i).PlainKind?;
      assert Lookup(volumes, mounts[i].name).name == name;
    }
    if i :| 0 <= i < n && Lookup(volumes, mounts[i].name).name == name {
      assert Lookup(volumes, init[i].name).name == name;
    }
    if i :| 0 <= i < n && Lookup(volumes, mounts[i].name).name == name && !KindAt(mounts, volumes, i).PlainKind? {
      assert Lookup(volumes, init[i].name).name == name;
    }
  }

  /** Rewriting twice changes nothing more than rewriting once, and a rewritten container gets the
      same pod volumes, staging paths and preinit mounts; only the original paths are lost. */
  lemma RewriteIdempotent(mounts: seq<Mount>, volumes: seq<Volume>)
    ensures Rewritten(Rewritten(mounts, volumes), volumes) == Rewritten(mounts, volumes)
    ensures SameStaging(Planned(mounts, volumes), Planned(Rewritten(mounts, volumes), volumes))
  {
    RewriteKeepsPlan(mounts, volumes);
  }

  lemma {:induction false} RewriteKeepsPlan(mounts: seq<Mount>, volumes: seq<Volume>)
    ensures SameStaging(Planned(mounts, volumes), Planned(Rewritten(mounts, volumes), volumes))
  {
    if mounts != [] {
      var n := |mounts| - 1;
      var r := Rewritten(mounts, volumes);
      RewriteKeepsPlan(mounts[..n], volumes);
      assert r[..n] == Rewritten(mounts[..n], volumes);
      assert r[n].name == mounts[n].name;
      AddMountSame(Planned(mounts[..n], volumes), Planned(r[..n], volumes),
                   Lookup(volumes, mounts[n].name), mounts[n].path, r[n].path);
    }
  }
}
