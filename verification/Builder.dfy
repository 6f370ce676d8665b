/** Building the pod of a task from its template (BuildWithKey, buildJob, addContainersByStrategyKey,
    newTaskContainerGroup and podSpec in api/v1/task_builder.go), as functions of values.  Module
    BuilderHeap has the same steps over shared arrays. */
module Builder {
  import opened Wrappers
  import opened PodSpecs
  import opened Names
  import Scheduler

  type Group = map<string, Plan>

  /** The strategy key of one task together with the environment variable that carries it. */
  datatype KeySpec = KeySpec(key: Scheduler.StrategyKey, env: string)

  function FindContainer(cs: seq<Container>, name: string): Option<Container> {
    if cs == [] then None
    else if cs[0].name == name then Some(cs[0])
    else FindContainer(cs[1..], name)
  }

  datatype BuildError = NoSuchMain | AmbiguousMain | UnnamedMain

  /** getMainContainerFromTmpl and the check of its caller. */
  function MainContainer(t: Template): Result<Container, BuildError> {
    var found :=
      if t.main != "" then
        match FindContainer(t.containers, t.main)
        case Some(c) => Ok(c)
        case None => Err(NoSuchMain)
      else if |t.containers| == 1 then Ok(t.containers[0])
      else Err(AmbiguousMain);
    if found.Ok? && found.value.name == "" then Err(UnnamedMain) else found
  }

  /** Container i is the first of that name. */
  predicate FirstNamed(cs: seq<Container>, name: string, i: nat) {
    i < |cs| && cs[i].name == name && forall j :: 0 <= j < i ==> cs[j].name != name
  }

  lemma {:induction false} FoundFirst(cs: seq<Container>, name: string) returns (i: nat)
    requires exists c :: c in cs && c.name == name
    ensures FirstNamed(cs, name, i) && FindContainer(cs, name) == Some(cs[i])
  {
    if cs[0].name == name {
      i := 0;
    } else {
      var rest := cs[1..];
      i := FoundFirst(rest, name);
      assert forall j :: 0 < j < |cs| ==> cs[j] == rest[j - 1];
      i := i + 1;
    }
  }

  lemma {:induction false} FoundNone(cs: seq<Container>, name: string)
    requires forall c :: c in cs ==> c.name != name
    ensures FindContainer(cs, name).None?
  {
    if cs != [] {
      FoundNone(cs[1..], name);
    }
  }

  /** A template has a main container exactly when it names one of its containers, or names none and has
      just one, which itself has a name; the main container is the first of that name. */
  lemma MainContainerExactly(t: Template)
    ensures MainContainer(t).Ok? <==>
            if t.main == "" then |t.containers| == 1 && t.containers[0].name != ""
            else exists c :: c in t.containers && c.name == t.main
    ensures MainContainer(t).Ok? ==>
              exists i :: 0 <= i < |t.containers| && t.containers[i] == MainContainer(t).value
                          && FirstNamed(t.containers, t.containers[i].name, i) && t.main in {"", t.containers[i].name}
  {
    if exists c :: c in t.containers && c.name == t.main {
      var i := FoundFirst(t.containers, t.main);
    } else {
      FoundNone(t.containers, t.main);
    }
    if |t.containers| == 1 {
      assert FirstNamed(t.containers, t.containers[0].name, 0);
    }
  }

  function KeyContainer(main: Container, k: KeySpec, idx: nat): Container
    requires idx < |k.key.keys|
  {
    main.(name := ContainerName(main.name, k.key.concurrentIdx, idx),
          env := main.env + [EnvVar(k.env, k.key.keys[idx])])
  }

  function KeyContainers(main: Container, k: KeySpec): (cs: seq<Container>)
    ensures |cs| == |k.key.keys|
  {
    seq(|k.key.keys|, idx requires 0 <= idx < |k.key.keys| => KeyContainer(main, k, idx))
  }

  function SideCars(cs: seq<Container>, mainName: string): seq<Container> {
    if cs == [] then []
    else (if cs[0].name == mainName then [] else [cs[0]]) + SideCars(cs[1..], mainName)
  }

  /** The ordinary containers of the pod: with a key, one copy of the main container per key after
      the sidecars. */
  function PodContainers(cs: seq<Container>, main: Container, key: Option<KeySpec>): seq<Container> {
    match key
    case None => cs
    case Some(k) => SideCars(cs, main.name) + KeyContainers(main, k)
  }

  function RewrittenContainer(c: Container, volumes: seq<Volume>): Container {
    c.(mounts := Rewritten(c.mounts, volumes))
  }

  function RewriteAll(cs: seq<Container>, volumes: seq<Volume>): (r: seq<Container>)
    ensures |r| == |cs|
  {
    seq(|cs|, i requires 0 <= i < |cs| => RewrittenContainer(cs[i], volumes))
  }

  /** containerMap: of several containers with one name the last counts. */
  function GroupOf(cs: seq<Container>, volumes: seq<Volume>): Group {
    if cs == [] then map[]
    else GroupOf(cs[..|cs| - 1], volumes)[cs[|cs| - 1].name := Planned(cs[|cs| - 1].mounts, volumes)]
  }

  datatype Built = Built(
    initContainers: seq<Container>, containers: seq<Container>,
    init: Group, main: Group, finalizers: Group)

  function BuildOf(t: Template, main: Container, key: Option<KeySpec>): Built {
    var cs := PodContainers(t.containers, main, key);
    Built(RewriteAll(t.init, t.volumes), RewriteAll(cs, t.volumes),
          GroupOf(t.init, t.volumes), GroupOf(cs, t.volumes), GroupOf([t.finalizer], t.volumes))
  }

  /** The template as one build leaves it: its finalizer is not copied, so its mounts stay rewritten. */
  function AfterBuild(t: Template): Template {
    t.(finalizer := RewrittenContainer(t.finalizer, t.volumes))
  }

  function AfterBuilds(t: Template, n: nat): Template {
    if n == 0 then t else AfterBuild(AfterBuilds(t, n - 1))
  }

  /*** Rebuilding. ***/

  lemma {:induction false} AfterBuildsValue(t: Template, n: nat)
    ensures AfterBuilds(t, n) == if n == 0 then t else AfterBuild(t)
  {
    if n > 0 {
      AfterBuildsValue(t, n - 1);
      RewriteIdempotent(t.finalizer.mounts, t.volumes);
    }
  }

  predicate TestMountsStaged(mounts: seq<Mount>, volumes: seq<Volume>) {
    forall i :: 0 <= i < |mounts| && !KindAt(mounts, volumes, i).PlainKind? ==>
                  mounts[i].path == Staging(KindAt(mounts, volumes, i), Lookup(volumes, mounts[i].name).name)
  }

  /** Any number of earlier builds leaves the init and ordinary containers, their plans and the pod
      spec of the next build as in the first; the template itself is unchanged exactly when every
      test volume the finalizer mounts was already mounted at its staging path. */
  lemma RebuildSamePod(t: Template, n: nat, main: Container, key: Option<KeySpec>)
    ensures var first, later := BuildOf(t, main, key), BuildOf(AfterBuilds(t, n), main, key);
      && later == first.(finalizers := later.finalizers)
      && later.finalizers.Keys == first.finalizers.Keys
      && forall name :: name in first.finalizers ==> SameStaging(first.finalizers[name], later.finalizers[name])
    ensures n > 0 ==> (AfterBuilds(t, n) == t <==> TestMountsStaged(t.finalizer.mounts, t.volumes))
  {
    AfterBuildsValue(t, n);
    var m := t.finalizer.mounts;
    RewriteIdempotent(m, t.volumes);
    RewrittenUnchanged(m, t.volumes);
    assert AfterBuild(t) == t <==> Rewritten(m, t.volumes) == m;
  }

  lemma RewrittenUnchanged(mounts: seq<Mount>, volumes: seq<Volume>)
    ensures Rewritten(mounts, volumes) == mounts <==> TestMountsStaged(mounts, volumes)
  {
    if Rewritten(mounts, volumes) == mounts {
      forall i | 0 <= i < |mounts| && !KindAt(mounts, volumes, i).PlainKind?
        ensures mounts[i].path == Staging(KindAt(mounts, volumes, i), Lookup(volumes, mounts[i].name).name)
      {
        assert Rewritten(mounts, volumes)[i] == mounts[i];
      }
    }
    if TestMountsStaged(mounts, volumes) {
      forall i | 0 <= i < |mounts| ensures RewriteMount(mounts[i], volumes) == mounts[i] {
        assert KindAt(mounts, volumes, i) == KindOf(Lookup(volumes, mounts[i].name).source);
      }
    }
  }

  function Repeated(p: Path, n: nat): (ps: seq<Path>)
    ensures |ps| == n
  {
    seq(n, _ => p)
  }

  /** From the second build on, all recorded original paths of the finalizer are the paths the first
      build put in their place, those of the log and of the report included. */
  lemma {:induction false} RebuiltFinalizerPaths(mounts: seq<Mount>, volumes: seq<Volume>)
    ensures var first, second := Planned(mounts, volumes), Planned(Rewritten(mounts, volumes), volumes);
      && second.org == first.staging
      && second.logOrg == Repeated(LOG_MOUNT, |first.logOrg|)
      && second.reportOrg == Repeated(REPORT_MOUNT, |first.reportOrg|)
  {
    if mounts != [] {
      var n := |mounts| - 1;
      var r := Rewritten(mounts, volumes);
      RebuiltFinalizerPaths(mounts[..n], volumes);
      assert r[..n] == Rewritten(mounts[..n], volumes);
      assert r[n].name == mounts[n].name;
      AddMountRecords(Planned(mounts[..n], volumes), Planned(r[..n], volumes), Lookup(volumes, mounts[n].name), mounts[n].path);
    }
  }

  lemma AddMountRecords(p: Plan, p': Plan, v: Volume, path: Path)
    requires p'.org == p.staging
    requires p'.logOrg == Repeated(LOG_MOUNT, |p.logOrg|) && p'.reportOrg == Repeated(REPORT_MOUNT, |p.reportOrg|)
    ensures var kind := KindOf(v.source);
      var q, q' := AddMount(p, v, path), AddMount(p', v, if kind.PlainKind? then path else Staging(kind, v.name));
      && q'.org == q.staging
      && q'.logOrg == Repeated(LOG_MOUNT, |q.logOrg|) && q'.reportOrg == Repeated(REPORT_MOUNT, |q.reportOrg|)
  {
  }

  /** The path recorded for mount i is the one it is staged at: the last mount of a resource, and every
      mount of the log or the report, is recorded. */
  predicate RecordStaged(mounts: seq<Mount>, volumes: seq<Volume>, i: nat)
    requires i < |mounts|
  {
    match KindAt(mounts, volumes, i)
    case ResourceKind(r) =>
      LastOf(mounts, volumes, i, r) ==> mounts[i].path == Staging(ResourceKind(r), Lookup(volumes, mounts[i].name).name)
    case LogKind => mounts[i].path == LOG_MOUNT
    case ReportKind => mounts[i].path == REPORT_MOUNT
    case PlainKind(_) => true
  }

  /** Building again records the same plan exactly when every recorded mount was already at its staging
      path; a mount that a later one of the same resource shadows does not matter. */
  lemma RecordedPathsKept(mounts: seq<Mount>, volumes: seq<Volume>)
    ensures Planned(Rewritten(mounts, volumes), volumes) == Planned(mounts, volumes) <==>
            forall i :: 0 <= i < |mounts| ==> RecordStaged(mounts, volumes, i)
  {
    var first := Planned(mounts, volumes);
    RebuiltFinalizerPaths(mounts, volumes);
    RewriteIdempotent(mounts, volumes);
    OrgStaged(mounts, volumes);
    LogsRecorded(mounts, volumes);
    ReportsRecorded(mounts, volumes);
    assert forall i :: 0 <= i < |mounts| ==> (RecordStaged(mounts, volumes, i) <==>
      ResourceStagedAt(mounts, volumes, i) && LogStagedAt(mounts, volumes, i) && ReportStagedAt(mounts, volumes, i));
  }

  predicate ResourceStagedAt(mounts: seq<Mount>, volumes: seq<Volume>, i: nat)
    requires i < |mounts|
  {
    var kind := KindAt(mounts, volumes, i);
    kind.ResourceKind? && LastOf(mounts, volumes, i, kind.resource) ==>
      mounts[i].path == Staging(kind, Lookup(volumes, mounts[i].name).name)
  }

  predicate LogStagedAt(mounts: seq<Mount>, volumes: seq<Volume>, i: nat)
    requires i < |mounts|
  {
    KindAt(mounts, volumes, i).LogKind? ==> mounts[i].path == LOG_MOUNT
  }

  predicate ReportStagedAt(mounts: seq<Mount>, volumes: seq<Volume>, i: nat)
    requires i < |mounts|
  {
    KindAt(mounts, volumes, i).ReportKind? ==> mounts[i].path == REPORT_MOUNT
  }

  predicate LogsStaged(mounts: seq<Mount>, volumes: seq<Volume>) {
    forall i :: 0 <= i < |mounts| ==> LogStagedAt(mounts, volumes, i)
  }

  predicate ReportsStaged(mounts: seq<Mount>, volumes: seq<Volume>) {
    forall i :: 0 <= i < |mounts| ==> ReportStagedAt(mounts, volumes, i)
  }

  lemma OrgStaged(mounts: seq<Mount>, volumes: seq<Volume>)
    ensures var p := Planned(mounts, volumes);
      p.org == p.staging <==> forall i :: 0 <= i < |mounts| ==> ResourceStagedAt(mounts, volumes, i)
  {
    var p := Planned(mounts, volumes);
    forall i | 0 <= i < |mounts| && p.org == p.staging ensures ResourceStagedAt(mounts, volumes, i) {
      var kind := KindAt(mounts, volumes, i);
      if kind.ResourceKind? && LastOf(mounts, volumes, i, kind.resource) {
        PlanLast(mounts, volumes, i, kind.resource);
      }
    }
    if forall i :: 0 <= i < |mounts| ==> ResourceStagedAt(mounts, volumes, i) {
      forall r ensures r in p.org <==> r in p.staging {
        PlanKeys(mounts, volumes, r);
      }
      forall r | r in p.org ensures p.org[r] == p.staging[r] {
        PlanKeys(mounts, volumes, r);
        var i := LastExists(mounts, volumes, r);
        PlanLast(mounts, volumes, i, r);
        assert ResourceStagedAt(mounts, volumes, i);
      }
    }
  }

  lemma StagedSnoc(mounts: seq<Mount>, volumes: seq<Volume>)
    requires mounts != []
    ensures var n := |mounts| - 1;
      && (LogsStaged(mounts, volumes) <==> LogsStaged(mounts[..n], volumes) && LogStagedAt(mounts, volumes, n))
      && (ReportsStaged(mounts, volumes) <==> ReportsStaged(mounts[..n], volumes) && ReportStagedAt(mounts, volumes, n))
  {
    var n := |mounts| - 1;
    var init := mounts[..n];
    forall i | 0 <= i < n
      ensures LogStagedAt(init, volumes, i) <==> LogStagedAt(mounts, volumes, i)
      ensures ReportStagedAt(init, volumes, i) <==> ReportStagedAt(mounts, volumes, i)
    {
      assert KindAt(init, volumes, i) == KindAt(mounts, volumes, i);
    }
  }

  lemma RepeatedSnoc(ps: seq<Path>, last: Path, p: Path)
    ensures ps + [last] == Repeated(p, |ps| + 1) <==> ps == Repeated(p, |ps|) && last == p
  {
    assert Repeated(p, |ps| + 1) == Repeated(p, |ps|) + [p];
    assert (ps + [last])[..|ps|] == ps && (Repeated(p, |ps|) + [p])[..|ps|] == Repeated(p, |ps|);
    assert (ps + [last])[|ps|] == last;
  }

  lemma {:induction false} LogsRecorded(mounts: seq<Mount>, volumes: seq<Volume>)
    ensures var log := Planned(mounts, volumes).logOrg; log == Repeated(LOG_MOUNT, |log|) <==> LogsStaged(mounts, volumes)
  {
    if mounts != [] {
      var n := |mounts| - 1;
      LogsRecorded(mounts[..n], volumes);
      StagedSnoc(mounts, volumes);
      RepeatedSnoc(Planned(mounts[..n], volumes).logOrg, mounts[n].path, LOG_MOUNT);
    }
  }

  lemma {:induction false} ReportsRecorded(mounts: seq<Mount>, volumes: seq<Volume>)
    ensures var report := Planned(mounts, volumes).reportOrg;
      report == Repeated(REPORT_MOUNT, |report|) <==> ReportsStaged(mounts, volumes)
  {
    if mounts != [] {
      var n := |mounts| - 1;
      ReportsRecorded(mounts[..n], volumes);
      StagedSnoc(mounts, volumes);
      RepeatedSnoc(Planned(mounts[..n], volumes).reportOrg, mounts[n].path, REPORT_MOUNT);
    }
  }

  /** A template on which the second build loses the path the finalizer's repository belongs to. */
  lemma FinalizerPathLost(path: Path)
    requires path != ["tmp", "repo-archive", "v"]
    ensures var volumes := [Volume("v", VolumeSource(Some("r"), None, None, false, None, ""))];
      var m := [Mount("v", path)];
      var first, second := Planned(m, volumes), Planned(Rewritten(m, volumes), volumes);
      && Repo("r") in first.org && first.org[Repo("r")] == path
      && Repo("r") in second.org && second.org[Repo("r")] == ["tmp", "repo-archive", "v"] != path
  {
    var volumes := [Volume("v", VolumeSource(Some("r"), None, None, false, None, ""))];
    var m := [Mount("v", path)];
    assert Lookup(volumes, "v") == volumes[0];
    assert LastOf(m, volumes, 0, Repo("r"));
    PlanLast(m, volumes, 0, Repo("r"));
    RebuiltFinalizerPaths(m, volumes);
  }

  /*** The containers of a pod. ***/

  /** ps lists, in increasing order, the positions of all containers that are not named like the main
      container. */
  predicate SideCarPositions(ps: seq<nat>, cs: seq<Container>, mainName: string) {
    && (forall i, j :: 0 <= i < j < |ps| ==> ps[i] < ps[j])
    && (forall j :: 0 <= j < |ps| ==> ps[j] < |cs|)
    && (forall i: nat :: i < |cs| ==> (i in ps <==> cs[i].name != mainName))
  }

  /** The containers at the given positions. */
  predicate Listed(r: seq<Container>, cs: seq<Container>, ps: seq<nat>) {
    |r| == |ps| && forall j :: 0 <= j < |ps| ==> ps[j] < |cs| && r[j] == cs[ps[j]]
  }

  /** The sidecars are these containers, in the order of the template. */
  lemma {:induction false} SideCarsInOrder(cs: seq<Container>, mainName: string) returns (ps: seq<nat>)
    ensures SideCarPositions(ps, cs, mainName) && Listed(SideCars(cs, mainName), cs, ps)
  {
    if cs == [] {
      ps := [];
    } else {
      var rest := SideCarsInOrder(cs[1..], mainName);
      var moved := Moved(rest);
      ps := if cs[0].name == mainName then moved else [0] + moved;
      MovedPositions(cs, mainName, rest, moved);
      var r := SideCars(cs[1..], mainName);
      MovedListed(r, cs, rest, moved);
      ListedFirst(r, cs, moved);
      assert [] + r == r;
    }
  }

  function Moved(ps: seq<nat>): (moved: seq<nat>)
    ensures |moved| == |ps| && forall j :: 0 <= j < |ps| ==> moved[j] == ps[j] + 1
  {
    seq(|ps|, j requires 0 <= j < |ps| => ps[j] + 1)
  }

  lemma MovedListed(r: seq<Container>, cs: seq<Container>, rest: seq<nat>, moved: seq<nat>)
    requires cs != [] && Listed(r, cs[1..], rest)
    requires |moved| == |rest| && forall j :: 0 <= j < |rest| ==> moved[j] == rest[j] + 1
    ensures Listed(r, cs, moved)
  {
    forall j | 0 <= j < |rest| ensures moved[j] < |cs| && r[j] == cs[moved[j]] {
      assert cs[1..][rest[j]] == cs[rest[j] + 1];
    }
  }

  lemma ListedFirst(r: seq<Container>, cs: seq<Container>, ps: seq<nat>)
    requires cs != [] && Listed(r, cs, ps)
    ensures Listed([cs[0]] + r, cs, [0] + ps)
  {
    var all, first := [cs[0]] + r, [0] + ps;
    forall j | 0 <= j < |first| ensures first[j] < |cs| && all[j] == cs[first[j]] {
      assert j > 0 ==> first[j] == ps[j - 1] && all[j] == r[j - 1];
    }
  }

  lemma MovedPositions(cs: seq<Container>, mainName: string, rest: seq<nat>, moved: seq<nat>)
    requires cs != [] && SideCarPositions(rest, cs[1..], mainName)
    requires |moved| == |rest| && forall j :: 0 <= j < |rest| ==> moved[j] == rest[j] + 1
    ensures SideCarPositions(if cs[0].name == mainName then moved else [0] + moved, cs, mainName)
  {
    var ps := if cs[0].name == mainName then moved else [0] + moved;
    forall i: nat | i < |cs| ensures i in ps <==> cs[i].name != mainName {
      if i > 0 {
        assert cs[1..][i - 1] == cs[i];
        if i - 1 in rest {
          var j :| 0 <= j < |rest| && rest[j] == i - 1;
          assert moved[j] == i;
        }
      }
    }
  }

  /** With a key the pod has the sidecars and, after them, one container per key: it is the main
      container, the mounts rewritten, with the key in its environment and a name of its own.  Without
      a key it has the containers of the template. */
  lemma ContainersBuilt(t: Template, main: Container, k: KeySpec)
    ensures var b, side := BuildOf(t, main, Some(k)), SideCars(t.containers, main.name);
      && |b.containers| == |side| + |k.key.keys|
      && (forall i :: 0 <= i < |side| ==> OnlyRewritten(b.containers[i], side[i], t.volumes))
      && forall idx :: 0 <= idx < |k.key.keys| ==>
           var c := b.containers[|side| + idx];
           && c.image == main.image && c.mounts == Rewritten(main.mounts, t.volumes)
           && c.env == main.env + [EnvVar(k.env, k.key.keys[idx])]
           && c.name == ContainerName(main.name, k.key.concurrentIdx, idx)
    ensures var b := BuildOf(t, main, None);
      && |b.containers| == |t.containers|
      && forall i :: 0 <= i < |t.containers| ==> OnlyRewritten(b.containers[i], t.containers[i], t.volumes)
    ensures forall key :: var b := BuildOf(t, main, key);
      && |b.initContainers| == |t.init|
      && forall i :: 0 <= i < |t.init| ==> OnlyRewritten(b.initContainers[i], t.init[i], t.volumes)
  {
  }

  /** Nothing but the mounts changes. */
  predicate OnlyRewritten(c: Container, original: Container, volumes: seq<Volume>) {
    c.name == original.name && c.image == original.image && c.env == original.env
    && c.mounts == Rewritten(original.mounts, volumes)
  }

  /*** Which containers are main. ***/

  predicate HasEnv(env: seq<EnvVar>, name: string) {
    exists i :: 0 <= i < |env| && env[i].name == name
  }

  /** Task.isMainContainer. */
  predicate IsMain(c: Container, mainName: string, env: Option<string>) {
    mainName == c.name || (env.Some? && HasEnv(c.env, env.value))
  }

  function FirstEnv(env: seq<EnvVar>, name: string): Option<string> {
    if env == [] then None else if env[0].name == name then Some(env[0].value) else FirstEnv(env[1..], name)
  }

  /** Task.getKeyName. */
  function KeyNameOf(c: Container, env: Option<string>): string {
    match env
    case None => c.name
    case Some(e) => (match FirstEnv(c.env, e) case Some(v) => v case None => c.name)
  }

  /** Task.SubTaskNum and Task.mainExecutors: the main containers in order. */
  function MainContainers(cs: seq<Container>, mainName: string, env: Option<string>): seq<Container> {
    if cs == [] then []
    else (if IsMain(cs[0], mainName, env) then [cs[0]] else []) + MainContainers(cs[1..], mainName, env)
  }

  method SubTaskNum(cs: seq<Container>, mainName: string, env: Option<string>) returns (n: nat)
    ensures n == |MainContainers(cs, mainName, env)|
  {
    n := 0;
    for i := 0 to |cs|
      invariant |MainContainers(cs, mainName, env)| == n + |MainContainers(cs[i..], mainName, env)|
    {
      if IsMain(cs[i], mainName, env) {
        n := n + 1;
      }
      assert cs[i..][1..] == cs[i + 1..];
    }
  }

  lemma {:induction false} MainContainersConcat(a: seq<Container>, b: seq<Container>, mainName: string, env: Option<string>)
    ensures MainContainers(a + b, mainName, env) == MainContainers(a, mainName, env) + MainContainers(b, mainName, env)
  {
    if a == [] {
      assert a + b == b;
    } else {
      MainContainersConcat(a[1..], b, mainName, env);
      var ab := a + b;
      assert ab[0] == a[0] && ab[1..] == a[1..] + b;
      var first := if IsMain(a[0], mainName, env) then [a[0]] else [];
      var x, y := MainContainers(a[1..], mainName, env), MainContainers(b, mainName, env);
      assert first + (x + y) == (first + x) + y;
    }
  }

  lemma {:induction false} AllMain(cs: seq<Container>, mainName: string, env: Option<string>)
    requires forall c :: c in cs ==> IsMain(c, mainName, env)
    ensures MainContainers(cs, mainName, env) == cs
  {
    if cs != [] {
      AllMain(cs[1..], mainName, env);
    }
  }

  lemma {:induction false} NoneMain(cs: seq<Container>, mainName: string, env: Option<string>)
    requires forall c :: c in cs ==> !IsMain(c, mainName, env)
    ensures MainContainers(cs, mainName, env) == []
  {
    if cs != [] {
      NoneMain(cs[1..], mainName, env);
    }
  }

  /** A container that alone has the main container's name is the only main one without a strategy. */
  lemma {:induction false} OnlyMain(cs: seq<Container>, i: nat)
    requires i < |cs| && forall j :: 0 <= j < |cs| && j != i ==> cs[j].name != cs[i].name
    ensures MainContainers(cs, cs[i].name, None) == [cs[i]]
    decreases i
  {
    var rest := cs[1..];
    assert forall j :: 0 <= j < |rest| ==> rest[j] == cs[j + 1];
    if i == 0 {
      NoneMain(rest, cs[0].name, None);
    } else {
      OnlyMain(rest, i - 1);
    }
  }

  /** Without a strategy the one subtask of a pod runs the main container, under its own name. */
  lemma PlainStepRunsMain(t: Template)
    requires MainContainer(t).Ok?
    requires forall i, j :: 0 <= i < j < |t.containers| ==> t.containers[i].name != t.containers[j].name
    ensures var main := MainContainer(t).value;
      && MainContainers(PodContainers(t.containers, main, None), main.name, None) == [main]
      && KeyNameOf(main, None) == main.name
  {
    MainContainerExactly(t);
    var i :| 0 <= i < |t.containers| && t.containers[i] == MainContainer(t).value;
    OnlyMain(t.containers, i);
  }

  /** No sidecar declares the strategy's environment variable. */
  predicate SideCarsClean(cs: seq<Container>, mainName: string, env: string) {
    forall c :: c in cs && c.name != mainName ==> !HasEnv(c.env, env)
  }

  lemma {:induction false} MainSideCars(cs: seq<Container>, mainName: string, env: string)
    ensures MainContainers(SideCars(cs, mainName), mainName, Some(env)) == [] <==> SideCarsClean(cs, mainName, env)
  {
    if cs != [] {
      var first := if cs[0].name == mainName then [] else [cs[0]];
      MainSideCars(cs[1..], mainName, env);
      MainContainersConcat(first, SideCars(cs[1..], mainName), mainName, Some(env));
      assert SideCars(cs, mainName) == first + SideCars(cs[1..], mainName);
      if first != [] {
        assert MainContainers(first, mainName, Some(env)) == (if IsMain(cs[0], mainName, Some(env)) then [cs[0]] else []) + [];
      }
    }
  }

  /** The main containers of a task with a key are the key containers, in key order, exactly when no
      sidecar declares the strategy's environment variable. */
  lemma MainContainersAreKeys(cs: seq<Container>, main: Container, k: KeySpec)
    ensures MainContainers(PodContainers(cs, main, Some(k)), main.name, Some(k.env)) == KeyContainers(main, k)
            <==> SideCarsClean(cs, main.name, k.env)
    ensures |MainContainers(PodContainers(cs, main, Some(k)), main.name, Some(k.env))| == |k.key.keys|
            <==> SideCarsClean(cs, main.name, k.env)
    ensures |MainContainers(PodContainers(cs, main, Some(k)), main.name, Some(k.env))| >= |k.key.keys|
  {
    var kcs := KeyContainers(main, k);
    forall c | c in kcs ensures IsMain(c, main.name, Some(k.env)) {
      var i :| 0 <= i < |kcs| && kcs[i] == c;
      assert c.env[|main.env|].name == k.env;
    }
    AllMain(kcs, main.name, Some(k.env));
    MainContainersConcat(SideCars(cs, main.name), kcs, main.name, Some(k.env));
    MainSideCars(cs, main.name, k.env);
  }

  lemma {:induction false} FirstEnvAppended(env: seq<EnvVar>, e: EnvVar)
    ensures FirstEnv(env + [e], e.name) ==
            if HasEnv(env, e.name) then FirstEnv(env, e.name) else Some(e.value)
    ensures HasEnv(env, e.name) <==> FirstEnv(env, e.name).Some?
  {
    if env != [] {
      FirstEnvAppended(env[1..], e);
      assert (env + [e])[1..] == env[1..] + [e];
      if HasEnv(env, e.name) && env[0].name != e.name {
        var i :| 0 <= i < |env| && env[i].name == e.name;
        assert env[1..][i - 1].name == e.name;
      }
      if HasEnv(env[1..], e.name) {
        var i :| 0 <= i < |env[1..]| && env[1..][i].name == e.name;
        assert env[i + 1].name == e.name;
      }
    }
  }

  /** A subtask is named after its key exactly when the main container does not already declare the
      variable, or declares that very value first. */
  lemma SubTaskNamedByKey(main: Container, k: KeySpec, idx: nat)
    requires idx < |k.key.keys|
    ensures KeyNameOf(KeyContainer(main, k, idx), Some(k.env)) == k.key.keys[idx]
            <==> !HasEnv(main.env, k.env) || FirstEnv(main.env, k.env) == Some(k.key.keys[idx])
  {
    FirstEnvAppended(main.env, EnvVar(k.env, k.key.keys[idx]));
  }
}
