/** The files the preinit container copies, against the files the mount commands of a pod's
    containers read (preInitCallback, the getCopyPathFor functions, the ...NameToMountPath lookups
    and the mount functions of api/v1/task_builder.go). */
module PreInitCopies {
  import opened Wrappers
  import opened PodSpecs
  import opened Builder
  import opened PreInit
  import opened ResourceOrder

  /** The runner's side of each resource: local paths by name, and the log and report files. */
  datatype Sources = Sources(files: map<Resource, Path>, log: Path, report: Path)

  datatype Copy = Copy(src: Path, dst: Path)

  /** filepath.Base. */
  function Base(p: Path): string {
    if p == [] then "." else p[|p| - 1]
  }

  /*** Looking up a staging path by name. ***/

  predicate GroupStages(g: Group, r: Resource) {
    exists c :: c in g && r in g[c].staging
  }

  /** The path of one of the containers that mount r, or no path. */
  predicate MayFind(g: Group, r: Resource, path: Path) {
    if GroupStages(g, r) then exists c :: c in g && r in g[c].staging && g[c].staging[r] == path
    else path == []
  }

  method FindStaging(g: Group, r: Resource) returns (path: Path)
    ensures MayFind(g, r, path)
  {
    var todo := g.Keys;
    while todo != {}
      invariant todo <= g.Keys
      invariant forall c :: c in g && c !in todo ==> r !in g[c].staging
      decreases todo
    {
      var c :| c in todo;
      if r in g[c].staging {
        return g[c].staging[r];
      }
      todo := todo - {c};
    }
    path := [];
  }

  /** The init containers are asked first, then the ordinary ones, then the finalizer. */
  ghost predicate MayPick(b: Built, r: Resource, path: Path) {
    exists pi, pm, pf :: MayFind(b.init, r, pi) && MayFind(b.main, r, pm) && MayFind(b.finalizers, r, pf)
      && path == if pi != [] then pi else if pm != [] then pm else pf
  }

  method PickStaging(b: Built, r: Resource) returns (path: Path)
    ensures MayPick(b, r, path)
  {
    path := FindStaging(b.init, r);
    ghost var pi := path;
    ghost var pm := SomeStaging(b.main, r);
    ghost var pf := SomeStaging(b.finalizers, r);
    if path == [] {
      path := FindStaging(b.main, r);
      pm := path;
      if path == [] {
        path := FindStaging(b.finalizers, r);
        pf := path;
      }
    }
    assert MayFind(b.init, r, pi) && MayFind(b.main, r, pm) && MayFind(b.finalizers, r, pf);
  }

  ghost function SomeStaging(g: Group, r: Resource): (path: Path)
    ensures MayFind(g, r, path)
  {
    if GroupStages(g, r) then var c :| c in g && r in g[c].staging; g[c].staging[r] else []
  }

  /*** The planned copies. ***/

  function GroupNames(g: Group): set<Resource> {
    set c, r | c in g && r in g[c].staging :: r
  }

  /** The resources copied: all that some container mounts, without the artifacts in a dry run. */
  function Wanted(b: Built, dryRun: bool): set<Resource> {
    set r | r in GroupNames(b.init) + GroupNames(b.main) + GroupNames(b.finalizers) && !(dryRun && r.Artifact?)
  }

  function CopyOf(sources: Sources, r: Resource, staging: Path): Copy
    requires r in sources.files
  {
    var src := sources.files[r];
    Copy(src, if r.Artifact? then staging else staging + [Base(src)])
  }

  function UsesLog(g: Group): bool {
    exists c :: c in g && g[c].logOrg != []
  }

  function UsesReport(g: Group): bool {
    exists c :: c in g && g[c].reportOrg != []
  }

  /** The copies of the log and the report. */
  function FileCopies(b: Built, sources: Sources, dryRun: bool): seq<Copy> {
    if dryRun then []
    else
      (if UsesLog(b.init) || UsesLog(b.main) || UsesLog(b.finalizers) then [Copy(sources.log, LOG_MOUNT_FILE)] else [])
      + (if UsesReport(b.init) || UsesReport(b.main) || UsesReport(b.finalizers)
         then [Copy(sources.report, REPORT_MOUNT + [Base(sources.report)])] else [])
  }

  /** One way of walking the containers: the resources in the order of their copies and the path
      picked for each. */
  datatype Walk = Walk(order: seq<Resource>, picks: map<Resource, Path>)

  ghost predicate WalkOf(b: Built, wanted: set<Resource>, w: Walk) {
    && InOrder(w.order) && (forall r :: r in w.order <==> r in wanted)
    && w.picks.Keys == wanted && Picked(b, w.picks)
  }

  ghost predicate Picked(b: Built, picks: map<Resource, Path>) {
    forall r :: r in picks ==> MayPick(b, r, picks[r])
  }

  lemma PickedNext(b: Built, picks: map<Resource, Path>, r: Resource, path: Path)
    requires Picked(b, picks) && MayPick(b, r, path)
    ensures Picked(b, picks[r := path])
  {
  }

  lemma JoinPicked(b: Built, picks: map<Resource, Path>, picks': map<Resource, Path>)
    requires Picked(b, picks) && Picked(b, picks')
    ensures Picked(b, picks + picks')
  {
  }

  function ResourceCopies(sources: Sources, w: Walk): (copies: seq<Copy>)
    requires forall r :: r in w.order ==> r in w.picks && r in sources.files
    ensures |copies| == |w.order|
  {
    seq(|w.order|, i requires 0 <= i < |w.order| => CopyOf(sources, w.order[i], w.picks[w.order[i]]))
  }

  /** The first of the names that the resource manager does not know. */
  predicate FirstUnknown(names: set<Resource>, sources: Sources, r: Resource) {
    && r in names && r !in sources.files
    && forall n :: n in names && n !in sources.files && n != r ==> Before(r, n)
  }

  lemma CopiesNext(sources: Sources, order: seq<Resource>, i: nat, picks: map<Resource, Path>, path: Path)
    requires i < |order| && InOrder(order) && order[i] in sources.files
    requires forall r :: r in order[..i] ==> r in picks && r in sources.files
    ensures forall r :: r in order[..i + 1] ==> r in picks[order[i] := path] && r in sources.files
    ensures ResourceCopies(sources, Walk(order[..i + 1], picks[order[i] := path]))
            == ResourceCopies(sources, Walk(order[..i], picks)) + [CopyOf(sources, order[i], path)]
  {
    forall j | 0 <= j < i ensures order[j] != order[i] && order[j] in order[..i] {
      BeforeStrict(order[j], order[i]);
    }
  }

  /** One loop over the sorted names of a kind; the first unknown name ends it. */
  method CopyNames(b: Built, sources: Sources, names: set<Resource>) returns (r: Result<seq<Copy>, Resource>, ghost w: Walk)
    ensures r.Ok? <==> names <= sources.files.Keys
    ensures r.Ok? ==> WalkOf(b, names, w) && r.value == ResourceCopies(sources, w)
    ensures r.Err? ==> FirstUnknown(names, sources, r.error)
  {
    var order := Sorted(names);
    var copies: seq<Copy> := [];
    ghost var picks: map<Resource, Path> := map[];
    for i := 0 to |order|
      invariant forall n :: n in order[..i] <==> n in picks
      invariant forall n :: n in order[..i] ==> n in sources.files
      invariant Picked(b, picks) && copies == ResourceCopies(sources, Walk(order[..i], picks))
    {
      if order[i] !in sources.files {
        FirstMissing(names, sources, order, i);
        return Err(order[i]), Walk([], map[]);
      }
      var path := PickStaging(b, order[i]);
      CopiesNext(sources, order, i, picks, path);
      PickedNext(b, picks, order[i], path);
      copies := copies + [CopyOf(sources, order[i], path)];
      picks := picks[order[i] := path];
    }
    assert order[..|order|] == order;
    w := Walk(order, picks);
    r := Ok(copies);
  }

  lemma FirstMissing(names: set<Resource>, sources: Sources, order: seq<Resource>, i: nat)
    requires InOrder(order) && (forall r :: r in order <==> r in names) && i < |order|
    requires order[i] !in sources.files && forall r :: r in order[..i] ==> r in sources.files
    ensures FirstUnknown(names, sources, order[i])
  {
    forall n | n in names && n !in sources.files && n != order[i] ensures Before(order[i], n) {
      var j :| 0 <= j < |order| && order[j] == n;
      assert j < i ==> order[j] in order[..i];
    }
  }

  /** The repositories, then the tokens, then the artifacts, then the log and the report. */
  method PlanCopies(b: Built, sources: Sources, dryRun: bool)
    returns (r: Result<seq<Copy>, Resource>, ghost w: Walk)
    ensures r.Ok? <==> Wanted(b, dryRun) <= sources.files.Keys
    ensures r.Ok? ==> WalkOf(b, Wanted(b, dryRun), w) && r.value == ResourceCopies(sources, w) + FileCopies(b, sources, dryRun)
    ensures r.Err? ==> FirstUnknown(Wanted(b, dryRun), sources, r.error)
    ensures r.Ok? && dryRun ==> |r.value| == |w.order| && forall n :: n in w.order ==> !n.Artifact?
  {
    var repoNames, tokenNames, artifactNames := WantedByKind(b, dryRun);
    var repos, w1 := CopyNames(b, sources, repoNames);
    if repos.Err? {
      return repos, w1;
    }
    var tokens, w2 := CopyNames(b, sources, tokenNames);
    if tokens.Err? {
      return tokens, w2;
    }
    var artifacts, w3 := CopyNames(b, sources, artifactNames);
    if artifacts.Err? {
      return artifacts, w3;
    }
    ghost var w12 := JoinWalks(b, sources, repoNames, tokenNames, w1, w2);
    w := JoinWalks(b, sources, repoNames + tokenNames, artifactNames, w12, w3);
    r := Ok(repos.value + tokens.value + artifacts.value + FileCopies(b, sources, dryRun));
  }

  lemma JoinWalks(b: Built, sources: Sources, ns: set<Resource>, ns': set<Resource>, w: Walk, w': Walk) returns (both: Walk)
    requires WalkOf(b, ns, w) && WalkOf(b, ns', w') && ns + ns' <= sources.files.Keys
    requires forall r, r' :: r in ns && r' in ns' ==> KindRank(r) < KindRank(r')
    ensures WalkOf(b, ns + ns', both)
    ensures both == Walk(w.order + w'.order, w.picks + w'.picks)
    ensures ResourceCopies(sources, both) == ResourceCopies(sources, w) + ResourceCopies(sources, w')
  {
    both := Walk(w.order + w'.order, w.picks + w'.picks);
    JoinInOrder(w.order, w'.order, ns, ns');
    JoinPicked(b, w.picks, w'.picks);
    JoinCopies(sources, w, w');
  }

  lemma JoinInOrder(a: seq<Resource>, b: seq<Resource>, s: set<Resource>, s': set<Resource>)
    requires InOrder(a) && InOrder(b)
    requires (forall x :: x in a ==> x in s) && (forall x :: x in b ==> x in s')
    requires forall r, r' :: r in s && r' in s' ==> KindRank(r) < KindRank(r')
    ensures InOrder(a + b)
  {
    forall i, j | 0 <= i < j < |a + b| ensures Before((a + b)[i], (a + b)[j]) {
      if i < |a| <= j {
        assert a[i] in s && b[j - |a|] in s';
      }
    }
  }

  lemma JoinCopies(sources: Sources, w: Walk, w': Walk)
    requires forall r :: r in w.order ==> r in w.picks && r in sources.files && r !in w'.picks
    requires forall r :: r in w'.order ==> r in w'.picks && r in sources.files
    ensures ResourceCopies(sources, Walk(w.order + w'.order, w.picks + w'.picks))
            == ResourceCopies(sources, w) + ResourceCopies(sources, w')
  {
    var order := w.order + w'.order;
    forall i | 0 <= i < |order|
      ensures (w.picks + w'.picks)[order[i]] == if i < |w.order| then w.picks[order[i]] else w'.picks[order[i]]
    {
      assert i < |w.order| ==> order[i] in w.order;
      assert i >= |w.order| ==> order[i] in w'.order;
    }
  }

  method WantedByKind(b: Built, dryRun: bool) returns (repos: set<Resource>, tokens: set<Resource>, artifacts: set<Resource>)
    ensures repos + tokens + artifacts == Wanted(b, dryRun)
    ensures forall r, r' :: r in repos && r' in tokens ==> KindRank(r) < KindRank(r')
    ensures forall r, r' :: r in repos + tokens && r' in artifacts ==> KindRank(r) < KindRank(r')
  {
    var wanted := Wanted(b, dryRun);
    repos := set n | n in wanted && n.Repo?;
    tokens := set n | n in wanted && n.Token?;
    artifacts := set n | n in wanted && n.Artifact?;
  }

  /*** Coverage.  A dry run drops both callbacks of a job (api/v1/job.go), so this is about the other
       run modes. ***/

  /** Where a copy must put a resource so that a container with this staging path finds it. */
  function CopyTarget(r: Resource, staging: Path): Path {
    match r
    case Repo(_) => staging + ["repo.tar.gz"]
    case Token(_) => staging + ["token"]
    case Artifact(_) => staging
  }

  predicate CopiesTo(copies: seq<Copy>, dst: Path) {
    exists k :: 0 <= k < |copies| && copies[k].dst == dst
  }

  predicate PlanOf(b: Built, plan: Plan) {
    plan in b.init.Values || plan in b.main.Values || plan in b.finalizers.Values
  }

  /** The mount commands of some container of the pod read r from this staging path. */
  ghost predicate Stages(b: Built, r: Resource, path: Path) {
    exists plan :: PlanOf(b, plan) && r in plan.staging && plan.staging[r] == path
  }

  /** Whatever is copied to dst comes from src. */
  predicate OnlyFrom(copies: seq<Copy>, src: Path, dst: Path) {
    forall k :: 0 <= k < |copies| && copies[k].dst == dst ==> copies[k].src == src
  }

  /** After the copies dst holds what src does. */
  predicate Delivers(copies: seq<Copy>, src: Path, dst: Path) {
    CopiesTo(copies, dst) && OnlyFrom(copies, src, dst)
  }

  /** Every repository archive, token and artifact that the mount commands of some container read is
      the destination of a planned copy, and what they read there is that very resource. */
  ghost predicate Covered(b: Built, sources: Sources, copies: seq<Copy>) {
    forall r, path :: Stages(b, r, path) ==> r in sources.files && Delivers(copies, sources.files[r], CopyTarget(r, path))
  }

  /** Any two containers that mount a resource mount it at the same staging path. */
  ghost predicate StagedAlike(b: Built) {
    forall r, path, path' :: Stages(b, r, path) && Stages(b, r, path') ==> path == path'
  }

  /** The resource managers name their files this way. */
  predicate FileNames(sources: Sources) {
    && (forall r :: r in sources.files && r.Repo? ==> Base(sources.files[r]) == "repo.tar.gz")
    && (forall r :: r in sources.files && r.Token? ==> Base(sources.files[r]) == "token")
    && Base(sources.report) == "report.json"
  }

  lemma ResourceStaged(volumes: seq<Volume>, mounts: seq<Mount>, r: Resource) returns (name: string)
    requires NamedVolumes(volumes) && r in Planned(mounts, volumes).staging
    ensures Planned(mounts, volumes).staging[r] == Staging(ResourceKind(r), name)
    ensures KindOf(Lookup(volumes, name).source) == ResourceKind(r)
  {
    PlanKeys(mounts, volumes, r);
    var i := LastExists(mounts, volumes, r);
    PlanLast(mounts, volumes, i, r);
    name := Lookup(volumes, mounts[i].name).name;
    LookupOfLookup(volumes, mounts[i].name);
  }

  lemma GroupPlan(cs: seq<Container>, volumes: seq<Volume>, plan: Plan) returns (i: nat)
    requires plan in GroupOf(cs, volumes).Values
    ensures i < |cs| && plan == Planned(cs[i].mounts, volumes)
  {
    var g := GroupOf(cs, volumes);
    var name :| name in g && g[name] == plan;
    i := GroupEntry(cs, volumes, name);
  }

  /** A staging path belongs to a volume whose source is the resource. */
  lemma StagedBy(t: Template, main: Container, key: Option<KeySpec>, r: Resource, path: Path) returns (name: string)
    requires NamedVolumes(t.volumes) && Stages(BuildOf(t, main, key), r, path)
    ensures path == Staging(ResourceKind(r), name)
    ensures KindOf(Lookup(t.volumes, name).source) == ResourceKind(r)
  {
    var b := BuildOf(t, main, key);
    var plan :| PlanOf(b, plan) && r in plan.staging && plan.staging[r] == path;
    var cs := if plan in b.init.Values then t.init
              else if plan in b.main.Values then PodContainers(t.containers, main, key)
              else [t.finalizer];
    var i := GroupPlan(cs, t.volumes, plan);
    name := ResourceStaged(t.volumes, cs[i].mounts, r);
  }

  lemma TargetsDiffer(r: Resource, name: string, r': Resource, name': string)
    requires CopyTarget(r, Staging(ResourceKind(r), name)) == CopyTarget(r', Staging(ResourceKind(r'), name'))
    ensures name == name' && (r.Repo? <==> r'.Repo?) && (r.Token? <==> r'.Token?)
  {
    var a, a' := CopyTarget(r, Staging(ResourceKind(r), name)), CopyTarget(r', Staging(ResourceKind(r'), name'));
    assert a[1] == a'[1] && a[2] == a'[2];
  }

  lemma TargetIsNoFile(b: Built, sources: Sources, r: Resource, name: string)
    requires FileNames(sources)
    ensures forall c :: c in FileCopies(b, sources, false) ==> c.dst != CopyTarget(r, Staging(ResourceKind(r), name))
  {
    var a := CopyTarget(r, Staging(ResourceKind(r), name));
    forall c | c in FileCopies(b, sources, false) ensures c.dst[1] != a[1] {
    }
  }

  lemma WantedStages(b: Built, r: Resource)
    ensures r in Wanted(b, false) <==> exists path :: Stages(b, r, path)
    ensures r in Wanted(b, true) <==> r in Wanted(b, false) && !r.Artifact?
  {
    if r in Wanted(b, false) {
      var g := if r in GroupNames(b.init) then b.init else if r in GroupNames(b.main) then b.main else b.finalizers;
      var c :| c in g && r in g[c].staging;
      assert PlanOf(b, g[c]);
      assert Stages(b, r, g[c].staging[r]);
    }
    if path :| Stages(b, r, path) {
      var plan :| PlanOf(b, plan) && r in plan.staging && plan.staging[r] == path;
    }
  }

  lemma FoundStages(t: Template, main: Container, key: Option<KeySpec>, g: Group, r: Resource, path: Path)
    requires NamedVolumes(t.volumes) && MayFind(g, r, path)
    requires var b := BuildOf(t, main, key); g == b.init || g == b.main || g == b.finalizers
    ensures if GroupStages(g, r) then Stages(BuildOf(t, main, key), r, path) && path != [] else path == []
  {
    if GroupStages(g, r) {
      var c :| c in g && r in g[c].staging && g[c].staging[r] == path;
      assert PlanOf(BuildOf(t, main, key), g[c]);
      var name := StagedBy(t, main, key, r, path);
    }
  }

  /** The path picked for a wanted resource is a staging path of some container. */
  lemma PickStages(t: Template, main: Container, key: Option<KeySpec>, r: Resource, path: Path)
    requires NamedVolumes(t.volumes)
    requires var b := BuildOf(t, main, key); r in Wanted(b, false) && MayPick(b, r, path)
    ensures Stages(BuildOf(t, main, key), r, path)
  {
    var b := BuildOf(t, main, key);
    var pi, pm, pf :| MayFind(b.init, r, pi) && MayFind(b.main, r, pm) && MayFind(b.finalizers, r, pf)
      && path == if pi != [] then pi else if pm != [] then pm else pf;
    FoundStages(t, main, key, b.init, r, pi);
    FoundStages(t, main, key, b.main, r, pm);
    FoundStages(t, main, key, b.finalizers, r, pf);
  }

  /** A resource that some init container mounts is copied to the path of one of these; failing that to
      that of an ordinary container, and failing that to the finalizer's. */
  lemma PickOrder(t: Template, main: Container, key: Option<KeySpec>, r: Resource, path: Path)
    requires NamedVolumes(t.volumes) && MayPick(BuildOf(t, main, key), r, path)
    ensures var b := BuildOf(t, main, key);
      MayFind(if GroupStages(b.init, r) then b.init else if GroupStages(b.main, r) then b.main else b.finalizers, r, path)
  {
    var b := BuildOf(t, main, key);
    var pi, pm, pf :| MayFind(b.init, r, pi) && MayFind(b.main, r, pm) && MayFind(b.finalizers, r, pf)
      && path == if pi != [] then pi else if pm != [] then pm else pf;
    FoundStages(t, main, key, b.init, r, pi);
    FoundStages(t, main, key, b.main, r, pm);
  }

  lemma FileCopyApart(b: Built, sources: Sources, w: Walk, k: nat, r: Resource, name: string)
    requires FileNames(sources) && forall x :: x in w.order ==> x in w.picks && x in sources.files
    requires var copies := ResourceCopies(sources, w) + FileCopies(b, sources, false);
      k < |copies| && copies[k].dst == CopyTarget(r, Staging(ResourceKind(r), name))
    ensures k < |w.order|
  {
    TargetIsNoFile(b, sources, r, name);
    var rc, fc := ResourceCopies(sources, w), FileCopies(b, sources, false);
    var target := CopyTarget(r, Staging(ResourceKind(r), name));
    forall j | 0 <= j < |fc| ensures fc[j].dst != target {
      assert fc[j] in fc;
    }
    assert forall i :: |rc| <= i < |rc + fc| ==> (rc + fc)[i] in fc;
  }

  /** The copies reach the target of a staging path exactly when that path was picked. */
  lemma CopiedExactly(t: Template, main: Container, key: Option<KeySpec>, sources: Sources, w: Walk,
                      r: Resource, path: Path)
    requires NamedVolumes(t.volumes) && FileNames(sources)
    requires var b := BuildOf(t, main, key);
      && Wanted(b, false) <= sources.files.Keys && WalkOf(b, Wanted(b, false), w)
      && Stages(b, r, path)
    ensures r in w.picks
    ensures CopiesTo(ResourceCopies(sources, w) + FileCopies(BuildOf(t, main, key), sources, false), CopyTarget(r, path))
            <==> w.picks[r] == path
    ensures r in sources.files
    ensures OnlyFrom(ResourceCopies(sources, w) + FileCopies(BuildOf(t, main, key), sources, false),
                     sources.files[r], CopyTarget(r, path))
  {
    var b := BuildOf(t, main, key);
    var copies := ResourceCopies(sources, w) + FileCopies(b, sources, false);
    WantedStages(b, r);
    forall k | 0 <= k < |copies| && copies[k].dst == CopyTarget(r, path)
      ensures w.picks[r] == path && copies[k].src == sources.files[r]
    {
      CopiedFrom(t, main, key, sources, w, r, path, k);
    }
    CopiedTo(sources, w, r, FileCopies(b, sources, false));
  }

  lemma CopiedTo(sources: Sources, w: Walk, r: Resource, files: seq<Copy>)
    requires FileNames(sources) && r in w.order
    requires forall x :: x in w.order ==> x in w.picks && x in sources.files
    ensures CopiesTo(ResourceCopies(sources, w) + files, CopyTarget(r, w.picks[r]))
  {
    var k :| 0 <= k < |w.order| && w.order[k] == r;
    assert (ResourceCopies(sources, w) + files)[k] == ResourceCopies(sources, w)[k];
  }

  lemma CopiedFrom(t: Template, main: Container, key: Option<KeySpec>, sources: Sources, w: Walk,
                   r: Resource, path: Path, k: nat)
    requires NamedVolumes(t.volumes) && FileNames(sources)
    requires var b := BuildOf(t, main, key);
      && Wanted(b, false) <= sources.files.Keys && WalkOf(b, Wanted(b, false), w)
      && Stages(b, r, path)
    requires var copies := ResourceCopies(sources, w) + FileCopies(BuildOf(t, main, key), sources, false);
      k < |copies| && copies[k].dst == CopyTarget(r, path)
    ensures r in w.picks && w.picks[r] == path && k < |w.order| && w.order[k] == r
    ensures (ResourceCopies(sources, w) + FileCopies(BuildOf(t, main, key), sources, false))[k].src == sources.files[r]
  {
    var name := StagedBy(t, main, key, r, path);
    FileCopyApart(BuildOf(t, main, key), sources, w, k, r, name);
    var r' := w.order[k];
    assert r' in w.order;
    PickStages(t, main, key, r', w.picks[r']);
    var name' := StagedBy(t, main, key, r', w.picks[r']);
    TargetsDiffer(r, name, r', name');
  }

  ghost predicate ReadsLog(b: Built) {
    exists plan :: PlanOf(b, plan) && plan.logOrg != []
  }

  ghost predicate ReadsReport(b: Built) {
    exists plan :: PlanOf(b, plan) && plan.reportOrg != []
  }

  const REPORT_MOUNT_JSON: Path := REPORT_MOUNT + ["report.json"]

  function AllCopies(b: Built, sources: Sources, w: Walk): seq<Copy>
    requires forall r :: r in w.order ==> r in w.picks && r in sources.files
  {
    ResourceCopies(sources, w) + FileCopies(b, sources, false)
  }

  /** Whatever order the container maps are walked in, the planned copies cover every resource the
      mount commands of the pod read exactly when all containers that mount a resource stage it at the
      same path, and the log and the report are copied exactly when some container reads them.  No other
      file ever reaches a place where a resource, the log or the report is read. */
  lemma PreInitCoverage(t: Template, main: Container, key: Option<KeySpec>, sources: Sources, w: Walk)
    requires NamedVolumes(t.volumes) && FileNames(sources)
    requires var b := BuildOf(t, main, key);
      Wanted(b, false) <= sources.files.Keys && WalkOf(b, Wanted(b, false), w)
    ensures var b := BuildOf(t, main, key); var copies := AllCopies(b, sources, w);
      && (Covered(b, sources, copies) <==> StagedAlike(b))
      && (forall r, path :: Stages(b, r, path) ==>
            r in sources.files && OnlyFrom(copies, sources.files[r], CopyTarget(r, path)))
      && (CopiesTo(copies, LOG_MOUNT_FILE) <==> ReadsLog(b)) && OnlyFrom(copies, sources.log, LOG_MOUNT_FILE)
      && (CopiesTo(copies, REPORT_MOUNT_JSON) <==> ReadsReport(b)) && OnlyFrom(copies, sources.report, REPORT_MOUNT_JSON)
  {
    var b := BuildOf(t, main, key);
    forall r, path | Stages(b, r, path)
      ensures r in sources.files && OnlyFrom(AllCopies(b, sources, w), sources.files[r], CopyTarget(r, path))
      ensures r in w.picks && (CopiesTo(AllCopies(b, sources, w), CopyTarget(r, path)) <==> w.picks[r] == path)
      ensures Stages(b, r, w.picks[r])
    {
      CopiedExactly(t, main, key, sources, w, r, path);
      WantedStages(b, r);
      PickStages(t, main, key, r, w.picks[r]);
    }
    ResourcesElsewhere(t, main, key, sources, w);
    FilesCopied(b, sources, ResourceCopies(sources, w));
    FilesOwn(b, sources, ResourceCopies(sources, w));
    ReadersUse(b);
  }

  lemma FilesOwn(b: Built, sources: Sources, before: seq<Copy>)
    requires FileNames(sources)
    requires !CopiesTo(before, LOG_MOUNT_FILE) && !CopiesTo(before, REPORT_MOUNT_JSON)
    ensures var copies := before + FileCopies(b, sources, false);
      OnlyFrom(copies, sources.log, LOG_MOUNT_FILE) && OnlyFrom(copies, sources.report, REPORT_MOUNT_JSON)
  {
    var files := FileCopies(b, sources, false);
    assert LOG_MOUNT_FILE[1] != REPORT_MOUNT_JSON[1];
    forall k | 0 <= k < |files|
      ensures files[k] == Copy(sources.log, LOG_MOUNT_FILE) || files[k] == Copy(sources.report, REPORT_MOUNT_JSON)
    {
    }
    forall k | 0 <= k < |before + files| ensures k >= |before| ==> (before + files)[k] == files[k - |before|] {
    }
    forall k | 0 <= k < |before| ensures before[k].dst != LOG_MOUNT_FILE && before[k].dst != REPORT_MOUNT_JSON {
    }
  }

  /** No resource is copied to where the log and the report belong. */
  lemma ResourcesElsewhere(t: Template, main: Container, key: Option<KeySpec>, sources: Sources, w: Walk)
    requires NamedVolumes(t.volumes) && FileNames(sources)
    requires var b := BuildOf(t, main, key);
      Wanted(b, false) <= sources.files.Keys && WalkOf(b, Wanted(b, false), w)
    ensures !CopiesTo(ResourceCopies(sources, w), LOG_MOUNT_FILE)
    ensures !CopiesTo(ResourceCopies(sources, w), REPORT_MOUNT_JSON)
  {
    forall k | 0 <= k < |w.order|
      ensures ResourceCopies(sources, w)[k].dst != LOG_MOUNT_FILE && ResourceCopies(sources, w)[k].dst != REPORT_MOUNT_JSON
    {
      assert w.order[k] in w.order;
      PickElsewhere(t, main, key, sources, w.order[k], w.picks[w.order[k]]);
    }
  }

  lemma PickElsewhere(t: Template, main: Container, key: Option<KeySpec>, sources: Sources, r: Resource, path: Path)
    requires NamedVolumes(t.volumes) && FileNames(sources) && r in sources.files
    requires var b := BuildOf(t, main, key); r in Wanted(b, false) && MayPick(b, r, path)
    ensures var dst := CopyOf(sources, r, path).dst; dst != LOG_MOUNT_FILE && dst != REPORT_MOUNT_JSON
  {
    PickStages(t, main, key, r, path);
    var name := StagedBy(t, main, key, r, path);
    TargetElsewhere(r, name);
  }

  lemma TargetElsewhere(r: Resource, name: string)
    ensures var dst := CopyTarget(r, Staging(ResourceKind(r), name)); dst != LOG_MOUNT_FILE && dst != REPORT_MOUNT_JSON
  {
    var dst := CopyTarget(r, Staging(ResourceKind(r), name));
    assert dst[1] == "repo-archive" || dst[1] == "token" || dst[1] == "artifact-archive";
  }

  lemma FilesCopied(b: Built, sources: Sources, before: seq<Copy>)
    requires FileNames(sources)
    requires !CopiesTo(before, LOG_MOUNT_FILE) && !CopiesTo(before, REPORT_MOUNT_JSON)
    ensures var copies := before + FileCopies(b, sources, false);
      && (CopiesTo(copies, LOG_MOUNT_FILE) <==> UsesLog(b.init) || UsesLog(b.main) || UsesLog(b.finalizers))
      && (CopiesTo(copies, REPORT_MOUNT_JSON) <==> UsesReport(b.init) || UsesReport(b.main) || UsesReport(b.finalizers))
  {
    var files := FileCopies(b, sources, false);
    CopiesToConcat(before, files, LOG_MOUNT_FILE);
    CopiesToConcat(before, files, REPORT_MOUNT_JSON);
    var log := UsesLog(b.init) || UsesLog(b.main) || UsesLog(b.finalizers);
    var report := UsesReport(b.init) || UsesReport(b.main) || UsesReport(b.finalizers);
    var logCopy, reportCopy := Copy(sources.log, LOG_MOUNT_FILE), Copy(sources.report, REPORT_MOUNT_JSON);
    assert files == (if log then [logCopy] else []) + (if report then [reportCopy] else []);
    assert LOG_MOUNT_FILE[1] != REPORT_MOUNT_JSON[1];
    CopiesToConcat(if log then [logCopy] else [], if report then [reportCopy] else [], LOG_MOUNT_FILE);
    CopiesToConcat(if log then [logCopy] else [], if report then [reportCopy] else [], REPORT_MOUNT_JSON);
    SingleCopy(logCopy);
    SingleCopy(reportCopy);
  }

  lemma SingleCopy(c: Copy)
    ensures forall dst :: CopiesTo([c], dst) <==> c.dst == dst
  {
    forall dst ensures CopiesTo([c], dst) <==> c.dst == dst {
      assert [c][0] == c;
    }
  }

  lemma CopiesToConcat(a: seq<Copy>, b: seq<Copy>, dst: Path)
    ensures CopiesTo(a + b, dst) <==> CopiesTo(a, dst) || CopiesTo(b, dst)
  {
    if k :| 0 <= k < |a| && a[k].dst == dst {
      assert (a + b)[k] == a[k];
    }
    if k :| 0 <= k < |b| && b[k].dst == dst {
      assert (a + b)[|a| + k] == b[k];
    }
  }

  lemma ReadersUse(b: Built)
    ensures ReadsLog(b) <==> UsesLog(b.init) || UsesLog(b.main) || UsesLog(b.finalizers)
    ensures ReadsReport(b) <==> UsesReport(b.init) || UsesReport(b.main) || UsesReport(b.finalizers)
  {
    forall plan | PlanOf(b, plan)
      ensures plan.logOrg != [] ==> UsesLog(b.init) || UsesLog(b.main) || UsesLog(b.finalizers)
      ensures plan.reportOrg != [] ==> UsesReport(b.init) || UsesReport(b.main) || UsesReport(b.finalizers)
    {
      PlanUses(b, plan);
    }
    GroupReads(b, b.init);
    GroupReads(b, b.main);
    GroupReads(b, b.finalizers);
  }

  lemma PlanUses(b: Built, plan: Plan)
    requires PlanOf(b, plan)
    ensures plan.logOrg != [] ==> UsesLog(b.init) || UsesLog(b.main) || UsesLog(b.finalizers)
    ensures plan.reportOrg != [] ==> UsesReport(b.init) || UsesReport(b.main) || UsesReport(b.finalizers)
  {
    if plan in b.init.Values {
      var c :| c in b.init && b.init[c] == plan;
    } else if plan in b.main.Values {
      var c :| c in b.main && b.main[c] == plan;
    } else {
      var c :| c in b.finalizers && b.finalizers[c] == plan;
    }
  }

  lemma GroupReads(b: Built, g: Group)
    requires g == b.init || g == b.main || g == b.finalizers
    ensures UsesLog(g) ==> ReadsLog(b)
    ensures UsesReport(g) ==> ReadsReport(b)
  {
    if UsesLog(g) {
      var c :| c in g && g[c].logOrg != [];
      assert PlanOf(b, g[c]);
    }
    if UsesReport(g) {
      var c :| c in g && g[c].reportOrg != [];
      assert PlanOf(b, g[c]);
    }
  }

  /*** Where the copies land. ***/

  predicate Below(path: Path, mount: Path) {
    |mount| <= |path| && path[..|mount|] == mount
  }

  /** The path lies in a volume that the preinit container mounts. */
  predicate Lands(mounts: map<string, Mount>, path: Path) {
    exists name :: name in mounts && Below(path, mounts[name].path)
  }

  ghost predicate MountsMerged(b: Built, mi: map<string, Mount>, mm: map<string, Mount>, mf: map<string, Mount>) {
    Merges(mi, MountMaps(b.init)) && Merges(mm, MountMaps(b.main)) && Merges(mf, MountMaps(b.finalizers))
  }

  /** Every file is copied into a volume that the preinit container mounts, so that the containers that
      mount it find the file there. */
  lemma CopiesLandInMounts(t: Template, main: Container, key: Option<KeySpec>, sources: Sources, w: Walk,
                           mi: map<string, Mount>, mm: map<string, Mount>, mf: map<string, Mount>)
    requires WellNamed(t, main, key) && FileNames(sources) && MountsMerged(BuildOf(t, main, key), mi, mm, mf)
    requires var b := BuildOf(t, main, key);
      Wanted(b, false) <= sources.files.Keys && WalkOf(b, Wanted(b, false), w)
    ensures var copies := AllCopies(BuildOf(t, main, key), sources, w);
      forall k :: 0 <= k < |copies| ==> Lands(mi + mm + mf, copies[k].dst)
  {
    var b := BuildOf(t, main, key);
    var rc, fc := ResourceCopies(sources, w), FileCopies(b, sources, false);
    forall k | 0 <= k < |rc| ensures Lands(mi + mm + mf, rc[k].dst) {
      assert w.order[k] in w.order;
      ResourceLands(t, main, key, sources, w.order[k], w.picks[w.order[k]], mi, mm, mf);
    }
    forall k | 0 <= k < |fc| ensures Lands(mi + mm + mf, fc[k].dst) {
      FileLands(t, main, key, sources, fc[k], mi, mm, mf);
    }
  }

  lemma ResourceLands(t: Template, main: Container, key: Option<KeySpec>, sources: Sources, r: Resource, path: Path,
                      mi: map<string, Mount>, mm: map<string, Mount>, mf: map<string, Mount>)
    requires WellNamed(t, main, key) && MountsMerged(BuildOf(t, main, key), mi, mm, mf) && r in sources.files
    requires var b := BuildOf(t, main, key); r in Wanted(b, false) && MayPick(b, r, path)
    ensures Lands(mi + mm + mf, CopyOf(sources, r, path).dst)
  {
    PickStages(t, main, key, r, path);
    var i, x := StagesLast(t, main, key, r, path);
    MountLands(t, main, key, i, x, CopyOf(sources, r, path).dst, mi, mm, mf);
  }

  lemma FileLands(t: Template, main: Container, key: Option<KeySpec>, sources: Sources, c: Copy,
                  mi: map<string, Mount>, mm: map<string, Mount>, mf: map<string, Mount>)
    requires WellNamed(t, main, key) && MountsMerged(BuildOf(t, main, key), mi, mm, mf)
    requires c in FileCopies(BuildOf(t, main, key), sources, false)
    ensures Lands(mi + mm + mf, c.dst)
  {
    var b := BuildOf(t, main, key);
    ReadersUse(b);
    if ReadsLog(b) && c == Copy(sources.log, LOG_MOUNT_FILE) {
      var plan :| PlanOf(b, plan) && plan.logOrg != [];
      var i, x := FileMounted(t, main, key, plan, LogKind);
      MountLands(t, main, key, i, x, c.dst, mi, mm, mf);
    } else {
      var plan :| PlanOf(b, plan) && plan.reportOrg != [];
      var i, x := FileMounted(t, main, key, plan, ReportKind);
      MountLands(t, main, key, i, x, c.dst, mi, mm, mf);
    }
  }

  lemma FileMounted(t: Template, main: Container, key: Option<KeySpec>, plan: Plan, kind: Kind) returns (i: nat, x: nat)
    requires PlanOf(BuildOf(t, main, key), plan)
    requires (kind == LogKind && plan.logOrg != []) || (kind == ReportKind && plan.reportOrg != [])
    ensures i < |AllContainers(t, main, key)| && x < |AllContainers(t, main, key)[i].mounts|
    ensures KindAt(AllContainers(t, main, key)[i].mounts, t.volumes, x) == kind
  {
    i := PlanOfContainer(t, main, key, plan);
    var mounts := AllContainers(t, main, key)[i].mounts;
    var path := (if kind == LogKind then plan.logOrg else plan.reportOrg)[0];
    PlanFiles(mounts, t.volumes, path);
    x :| x < |mounts| && KindAt(mounts, t.volumes, x) == kind && mounts[x].path == path;
  }

  /** What lies below the staging path of a mount lies in a volume of the preinit container. */
  lemma MountLands(t: Template, main: Container, key: Option<KeySpec>, i: nat, x: nat, path: Path,
                   mi: map<string, Mount>, mm: map<string, Mount>, mf: map<string, Mount>)
    requires WellNamed(t, main, key) && MountsMerged(BuildOf(t, main, key), mi, mm, mf)
    requires i < |AllContainers(t, main, key)| && x < |AllContainers(t, main, key)[i].mounts|
    requires var mounts := AllContainers(t, main, key)[i].mounts; var kind := KindAt(mounts, t.volumes, x);
      !kind.PlainKind? && Below(path, Staging(kind, Lookup(t.volumes, mounts[x].name).name))
    ensures Lands(mi + mm + mf, path)
  {
    var cs, c := PodContainers(t.containers, main, key), AllContainers(t, main, key)[i];
    var name := Lookup(t.volumes, c.mounts[x].name).name;
    LookupOfLookup(t.volumes, c.mounts[x].name);
    assert MountsTestVolume(c.mounts, t.volumes, name);
    MergedMounts(t.init, t.volumes, mi, name);
    MergedMounts(cs, t.volumes, mm, name);
    MergedMounts([t.finalizer], t.volumes, mf, name);
    if i < |t.init| {
      assert t.init[i] == c;
    } else if i < |t.init| + |cs| {
      assert cs[i - |t.init|] == c;
    } else {
      assert [t.finalizer][0] == c;
    }
    assert name in mi + mm + mf && Below(path, (mi + mm + mf)[name].path);
  }

  /** Confluence: when all containers stage alike, every walk plans the same copies. */
  lemma CopiesConfluent(t: Template, main: Container, key: Option<KeySpec>, w: Walk, w': Walk)
    requires NamedVolumes(t.volumes)
    requires var b := BuildOf(t, main, key);
      StagedAlike(b) && WalkOf(b, Wanted(b, false), w) && WalkOf(b, Wanted(b, false), w')
    ensures w == w'
  {
    var b := BuildOf(t, main, key);
    OrderUnique(w.order, w'.order);
    forall r | r in Wanted(b, false) ensures w.picks[r] == w'.picks[r] {
      PickStages(t, main, key, r, w.picks[r]);
      PickStages(t, main, key, r, w'.picks[r]);
    }
  }

  /*** When containers stage alike. ***/

  /** All containers of the pod. */
  function AllContainers(t: Template, main: Container, key: Option<KeySpec>): seq<Container> {
    t.init + PodContainers(t.containers, main, key) + [t.finalizer]
  }

  /** The last mount of r in container i is mount x. */
  predicate LastMount(cs: seq<Container>, volumes: seq<Volume>, i: nat, x: nat, r: Resource) {
    i < |cs| && LastOf(cs[i].mounts, volumes, x, r)
  }

  function VolumeNameAt(cs: seq<Container>, volumes: seq<Volume>, i: nat, x: nat): string
    requires i < |cs| && x < |cs[i].mounts|
  {
    Lookup(volumes, cs[i].mounts[x].name).name
  }

  /** In all containers that mount a resource the last mount of it is of one volume. */
  ghost predicate OneVolumeMounted(cs: seq<Container>, volumes: seq<Volume>) {
    forall i: nat, x: nat, j: nat, y: nat, r :: LastMount(cs, volumes, i, x, r) && LastMount(cs, volumes, j, y, r)
      ==> VolumeNameAt(cs, volumes, i, x) == VolumeNameAt(cs, volumes, j, y)
  }

  lemma PlanOfContainer(t: Template, main: Container, key: Option<KeySpec>, plan: Plan) returns (i: nat)
    requires PlanOf(BuildOf(t, main, key), plan)
    ensures i < |AllContainers(t, main, key)|
    ensures plan == Planned(AllContainers(t, main, key)[i].mounts, t.volumes)
  {
    var b := BuildOf(t, main, key);
    var cs := PodContainers(t.containers, main, key);
    if plan in b.init.Values {
      i := GroupPlan(t.init, t.volumes, plan);
    } else if plan in b.main.Values {
      i := GroupPlan(cs, t.volumes, plan);
      i := |t.init| + i;
    } else {
      i := GroupPlan([t.finalizer], t.volumes, plan);
      i := |t.init| + |cs|;
    }
  }

  lemma ContainerPlanOf(t: Template, main: Container, key: Option<KeySpec>, i: nat)
    requires WellNamed(t, main, key) && i < |AllContainers(t, main, key)|
    ensures PlanOf(BuildOf(t, main, key), Planned(AllContainers(t, main, key)[i].mounts, t.volumes))
  {
    var cs := PodContainers(t.containers, main, key);
    if i < |t.init| {
      MemberPlan(t.init, t.volumes, i);
    } else if i < |t.init| + |cs| {
      MemberPlan(cs, t.volumes, i - |t.init|);
    } else {
      MemberPlan([t.finalizer], t.volumes, 0);
    }
  }

  lemma MemberPlan(cs: seq<Container>, volumes: seq<Volume>, i: nat)
    requires i < |cs| && DistinctNames(cs)
    ensures Planned(cs[i].mounts, volumes) in GroupOf(cs, volumes).Values
  {
    GroupHas(cs, volumes, i);
  }

  lemma LastStages(t: Template, main: Container, key: Option<KeySpec>, i: nat, x: nat, r: Resource)
    requires WellNamed(t, main, key) && LastMount(AllContainers(t, main, key), t.volumes, i, x, r)
    ensures Stages(BuildOf(t, main, key), r, Staging(ResourceKind(r), VolumeNameAt(AllContainers(t, main, key), t.volumes, i, x)))
  {
    ContainerPlanOf(t, main, key, i);
    PlanLast(AllContainers(t, main, key)[i].mounts, t.volumes, x, r);
  }

  lemma StagesLast(t: Template, main: Container, key: Option<KeySpec>, r: Resource, path: Path) returns (i: nat, x: nat)
    requires Stages(BuildOf(t, main, key), r, path)
    ensures LastMount(AllContainers(t, main, key), t.volumes, i, x, r)
    ensures path == Staging(ResourceKind(r), VolumeNameAt(AllContainers(t, main, key), t.volumes, i, x))
  {
    var plan :| PlanOf(BuildOf(t, main, key), plan) && r in plan.staging && plan.staging[r] == path;
    i := PlanOfContainer(t, main, key, plan);
    var mounts := AllContainers(t, main, key)[i].mounts;
    PlanKeys(mounts, t.volumes, r);
    x := LastExists(mounts, t.volumes, r);
    PlanLast(mounts, t.volumes, x, r);
  }

  lemma StagingInjective(r: Resource, name: string, name': string)
    ensures Staging(ResourceKind(r), name) == Staging(ResourceKind(r), name') <==> name == name'
  {
    assert Staging(ResourceKind(r), name)[2] == name && Staging(ResourceKind(r), name')[2] == name';
  }

  /** All containers stage alike exactly when, in all containers of the template that mount a resource,
      the last mount of it is of the same volume. */
  lemma StagedAlikeExactly(t: Template, main: Container, key: Option<KeySpec>)
    requires WellNamed(t, main, key)
    ensures StagedAlike(BuildOf(t, main, key)) <==> OneVolumeMounted(AllContainers(t, main, key), t.volumes)
  {
    var b := BuildOf(t, main, key);
    var cs := AllContainers(t, main, key);
    if StagedAlike(b) {
      forall i: nat, x: nat, j: nat, y: nat, r | LastMount(cs, t.volumes, i, x, r) && LastMount(cs, t.volumes, j, y, r)
        ensures VolumeNameAt(cs, t.volumes, i, x) == VolumeNameAt(cs, t.volumes, j, y)
      {
        LastStages(t, main, key, i, x, r);
        LastStages(t, main, key, j, y, r);
        StagingInjective(r, VolumeNameAt(cs, t.volumes, i, x), VolumeNameAt(cs, t.volumes, j, y));
      }
    }
    if OneVolumeMounted(cs, t.volumes) {
      forall r, path, path' | Stages(b, r, path) && Stages(b, r, path') ensures path == path' {
        var i, x := StagesLast(t, main, key, r, path);
        var j, y := StagesLast(t, main, key, r, path');
      }
    }
  }

  /** No resource is the source of two volumes. */
  predicate OneVolumeEach(volumes: seq<Volume>) {
    forall i, j :: 0 <= i < |volumes| && 0 <= j < |volumes| ==>
      KindOf(volumes[i].source).ResourceKind? && KindOf(volumes[i].source) == KindOf(volumes[j].source) ==>
        volumes[i].name == volumes[j].name
  }

  /** With at most one volume per resource every container stages alike, so every walk covers all. */
  lemma OneVolumeStagesAlike(t: Template, main: Container, key: Option<KeySpec>)
    requires NamedVolumes(t.volumes) && OneVolumeEach(t.volumes)
    ensures StagedAlike(BuildOf(t, main, key))
  {
    var b := BuildOf(t, main, key);
    forall r, path, path' | Stages(b, r, path) && Stages(b, r, path')
      ensures path == path'
    {
      var name := StagedBy(t, main, key, r, path);
      var name' := StagedBy(t, main, key, r, path');
      SameSource(t.volumes, name, name');
    }
  }

  lemma SameSource(volumes: seq<Volume>, name: string, name': string)
    requires OneVolumeEach(volumes)
    requires KindOf(Lookup(volumes, name).source).ResourceKind?
    requires KindOf(Lookup(volumes, name).source) == KindOf(Lookup(volumes, name').source)
    ensures name == name'
  {
    LookupDeclared(volumes, name);
    LookupDeclared(volumes, name');
    var i :| 0 <= i < |volumes| && volumes[i] == Lookup(volumes, name);
    var j :| 0 <= j < |volumes| && volumes[j] == Lookup(volumes, name');
  }

  /** TaskBuildContext.taskContainer. */
  function TaskPlan(b: Built, name: string, isInitContainer: bool): Option<Plan> {
    if isInitContainer then (if name in b.init then Some(b.init[name]) else None)
    else if name in b.finalizers then Some(b.finalizers[name])
    else if name in b.main then Some(b.main[name])
    else None
  }

  /** The plan whose mount commands run in a container is that container's own, except that an
      ordinary container named like the finalizer gets the finalizer's. */
  lemma MountPlan(t: Template, main: Container, key: Option<KeySpec>)
    requires WellNamed(t, main, key)
    ensures var b := BuildOf(t, main, key); var cs := PodContainers(t.containers, main, key);
      && (forall i :: 0 <= i < |t.init| ==>
            TaskPlan(b, t.init[i].name, true) == Some(Planned(t.init[i].mounts, t.volumes)))
      && (forall i :: 0 <= i < |cs| ==>
            TaskPlan(b, cs[i].name, false)
            == Some(Planned(if cs[i].name == t.finalizer.name then t.finalizer.mounts else cs[i].mounts, t.volumes)))
  {
    var cs := PodContainers(t.containers, main, key);
    forall i | 0 <= i < |t.init| ensures t.init[i].name in GroupOf(t.init, t.volumes)
        && GroupOf(t.init, t.volumes)[t.init[i].name] == Planned(t.init[i].mounts, t.volumes) {
      GroupHas(t.init, t.volumes, i);
    }
    forall i | 0 <= i < |cs| ensures cs[i].name in GroupOf(cs, t.volumes)
        && GroupOf(cs, t.volumes)[cs[i].name] == Planned(cs[i].mounts, t.volumes) {
      GroupHas(cs, t.volumes, i);
    }
    var f := [t.finalizer];
    assert f[..0] == [];
    assert GroupOf(f, t.volumes) == map[t.finalizer.name := Planned(t.finalizer.mounts, t.volumes)];
  }
}
