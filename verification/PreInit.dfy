/** Merging the plans of a pod's containers: pod volumes, preinit mounts and the files the preinit
    container copies (podSpec, preInitVolumeMounts, preInitCallback and the mount functions of
    api/v1/task_builder.go).  The source walks Go maps, so every loop here takes the entries in an
    arbitrary order. */
module PreInit {
  import opened Wrappers
  import opened PodSpecs
  import opened Builder

  predicate DistinctNames(cs: seq<Container>) {
    forall i, j :: 0 <= i < j < |cs| ==> cs[i].name != cs[j].name
  }

  /** Every entry of a group is the plan of a container of that name. */
  lemma {:induction false} GroupEntry(cs: seq<Container>, volumes: seq<Volume>, name: string) returns (i: nat)
    requires name in GroupOf(cs, volumes)
    ensures i < |cs| && cs[i].name == name && GroupOf(cs, volumes)[name] == Planned(cs[i].mounts, volumes)
  {
    var n := |cs| - 1;
    if cs[n].name == name {
      i := n;
    } else {
      i := GroupEntry(cs[..n], volumes, name);
    }
  }

  /** Of several containers of one name the last counts. */
  lemma {:induction false} GroupHas(cs: seq<Container>, volumes: seq<Volume>, i: nat)
    requires i < |cs| && forall j :: i < j < |cs| ==> cs[j].name != cs[i].name
    ensures cs[i].name in GroupOf(cs, volumes)
    ensures GroupOf(cs, volumes)[cs[i].name] == Planned(cs[i].mounts, volumes)
    decreases |cs|
  {
    var n := |cs| - 1;
    if i < n {
      GroupHas(cs[..n], volumes, i);
    }
  }

  /*** Merged volumes and mounts. ***/

  /** m holds what the maps of a group hold, one of the values where several have a key. */
  predicate Merges<V(==)>(m: map<string, V>, maps: map<string, map<string, V>>) {
    && (forall c, k :: c in maps && k in maps[c] ==> k in m)
    && (forall k :: k in m ==> exists c :: c in maps && k in maps[c] && maps[c][k] == m[k])
  }

  function VolumeMaps(g: Group): map<string, map<string, PodVolume>> {
    map c | c in g :: g[c].podVolumes
  }

  function MountMaps(g: Group): map<string, map<string, Mount>> {
    map c | c in g :: g[c].preInitMounts
  }

  /** podSpecVolumeMap and preInitVolumeMountMap of a group. */
  method Merge<V(==)>(maps: map<string, map<string, V>>) returns (m: map<string, V>)
    ensures Merges(m, maps)
  {
    m := map[];
    var todo := maps.Keys;
    while todo != {}
      invariant todo <= maps.Keys
      invariant Merges(m, map c | c in maps && c !in todo :: maps[c])
      decreases todo
    {
      ghost var before := map c | c in maps && c !in todo :: maps[c];
      var c :| c in todo;
      todo := todo - {c};
      ghost var after := map d | d in maps && d !in todo :: maps[d];
      MergeStep(m, before, c, maps[c], after);
      m := m + maps[c];
    }
    assert (map c | c in maps && c !in todo :: maps[c]) == maps;
  }

  lemma MergeStep<V>(m: map<string, V>, before: map<string, map<string, V>>, c: string, added: map<string, V>,
                     after: map<string, map<string, V>>)
    requires Merges(m, before) && c !in before && after == before[c := added]
    ensures Merges(m + added, after)
  {
    forall k | k in m + added ensures exists d :: d in after && k in after[d] && after[d][k] == (m + added)[k] {
      if k in added {
        assert after[c][k] == added[k];
      } else {
        var d :| d in before && k in before[d] && before[d][k] == m[k];
        assert after[d][k] == m[k];
      }
    }
    forall d, k | d in after && k in after[d] ensures k in m + added {
    }
  }

  /** Confluence: when the value under a key depends on the key alone, every order of merging gives
      the same map. */
  lemma MergeUnique<V>(m: map<string, V>, m': map<string, V>, maps: map<string, map<string, V>>)
    requires Merges(m, maps) && Merges(m', maps)
    requires forall c, d, k :: c in maps && d in maps && k in maps[c] && k in maps[d] ==> maps[c][k] == maps[d][k]
    ensures m == m'
  {
    forall k | k in m ensures k in m' && m'[k] == m[k] {
      MergedValue(m, maps, k);
      MergedValue(m', maps, k);
    }
    forall k | k in m' ensures k in m {
      MergedValue(m', maps, k);
    }
  }

  lemma MergedValue<V>(m: map<string, V>, maps: map<string, map<string, V>>, k: string)
    requires Merges(m, maps)
    ensures k in m <==> exists c :: c in maps && k in maps[c]
    ensures k in m ==> exists c :: c in maps && k in maps[c] && maps[c][k] == m[k]
  {
  }

  /** A list of the values of a map, each once. */
  predicate Lists<V(==)>(vs: seq<V>, m: map<string, V>) {
    |vs| == |m| && (forall k :: k in m ==> m[k] in vs) && (forall v :: v in vs ==> v in m.Values)
  }

  method ListValues<V(==)>(m: map<string, V>) returns (vs: seq<V>)
    ensures Lists(vs, m)
  {
    vs := [];
    var todo := m.Keys;
    while todo != {}
      invariant todo <= m.Keys && |vs| + |todo| == |m|
      invariant forall k :: k in m && k !in todo ==> m[k] in vs
      invariant forall v :: v in vs ==> v in m.Values
      decreases todo
    {
      var k :| k in todo;
      todo := todo - {k};
      vs := vs + [m[k]];
    }
  }

  /** The volumes of a pod: those its embedded pod spec already lists, followed by those of the init
      containers and of the ordinary containers. */
  method PodSpecVolumes(b: Built, given: seq<PodVolume>) returns (m: map<string, PodVolume>, volumes: seq<PodVolume>)
    ensures exists mi, mm :: Merges(mi, VolumeMaps(b.init)) && Merges(mm, VolumeMaps(b.main)) && m == mi + mm
    ensures |given| <= |volumes| && volumes[..|given|] == given && Lists(volumes[|given|..], m)
  {
    var mi := Merge(VolumeMaps(b.init));
    var mm := Merge(VolumeMaps(b.main));
    m := mi + mm;
    var added := ListValues(m);
    volumes := given + added;
    assert volumes[|given|..] == added;
  }

  method PreInitVolumeMounts(b: Built) returns (m: map<string, Mount>, mounts: seq<Mount>)
    ensures exists mi, mm, mf :: Merges(mi, MountMaps(b.init)) && Merges(mm, MountMaps(b.main))
              && Merges(mf, MountMaps(b.finalizers)) && m == mi + mm + mf
    ensures Lists(mounts, m)
  {
    var mi := Merge(MountMaps(b.init));
    var mm := Merge(MountMaps(b.main));
    var mf := Merge(MountMaps(b.finalizers));
    m := mi + mm + mf;
    mounts := ListValues(m);
  }

  predicate SomeMountsVolume(cs: seq<Container>, volumes: seq<Volume>, name: string) {
    exists i :: 0 <= i < |cs| && MountsVolume(cs[i].mounts, volumes, name)
  }

  predicate SomeMountsTestVolume(cs: seq<Container>, volumes: seq<Volume>, name: string) {
    exists i :: 0 <= i < |cs| && MountsTestVolume(cs[i].mounts, volumes, name)
  }

  lemma MergedVolumes(cs: seq<Container>, volumes: seq<Volume>, m: map<string, PodVolume>, name: string)
    requires NamedVolumes(volumes) && DistinctNames(cs) && Merges(m, VolumeMaps(GroupOf(cs, volumes)))
    ensures name in m <==> SomeMountsVolume(cs, volumes, name)
    ensures name in m ==> m[name] == PodVolumeOf(volumes, name)
  {
    var g := GroupOf(cs, volumes);
    var maps := VolumeMaps(g);
    if name in m {
      var c :| c in maps && name in maps[c] && maps[c][name] == m[name];
      var i := GroupEntry(cs, volumes, c);
      PlanVolumes(cs[i].mounts, volumes, name);
    }
    if i :| 0 <= i < |cs| && MountsVolume(cs[i].mounts, volumes, name) {
      GroupHas(cs, volumes, i);
      PlanVolumes(cs[i].mounts, volumes, name);
      assert name in maps[cs[i].name];
    }
  }

  lemma MergedMounts(cs: seq<Container>, volumes: seq<Volume>, m: map<string, Mount>, name: string)
    requires NamedVolumes(volumes) && DistinctNames(cs) && Merges(m, MountMaps(GroupOf(cs, volumes)))
    ensures name in m <==> SomeMountsTestVolume(cs, volumes, name)
    ensures name in m ==> m[name] == Mount(name, Staging(KindOf(Lookup(volumes, name).source), name))
  {
    var g := GroupOf(cs, volumes);
    var maps := MountMaps(g);
    if name in m {
      var c :| c in maps && name in maps[c] && maps[c][name] == m[name];
      var i := GroupEntry(cs, volumes, c);
      PlanVolumes(cs[i].mounts, volumes, name);
    }
    if i :| 0 <= i < |cs| && MountsTestVolume(cs[i].mounts, volumes, name) {
      GroupHas(cs, volumes, i);
      PlanVolumes(cs[i].mounts, volumes, name);
      assert name in maps[cs[i].name];
    }
  }

  /** Kubernetes requires container names to be unique within a pod. */
  predicate WellNamed(t: Template, main: Container, key: Option<KeySpec>) {
    NamedVolumes(t.volumes) && DistinctNames(t.init) && DistinctNames(PodContainers(t.containers, main, key))
  }

  /** What the mounts ask for is staged where the rewritten mounts are, with the path asked for. */
  ghost predicate FindsMounts(p: Plan, mounts: seq<Mount>, rewritten: seq<Mount>, volumes: seq<Volume>) {
    |rewritten| == |mounts| && forall x: nat, r :: LastOf(mounts, volumes, x, r) ==>
      && r in p.staging && p.staging[r] == rewritten[x].path && r in p.org && p.org[r] == mounts[x].path
  }

  lemma PlanFinds(mounts: seq<Mount>, volumes: seq<Volume>)
    ensures FindsMounts(Planned(mounts, volumes), mounts, Rewritten(mounts, volumes), volumes)
  {
    forall x: nat, r | LastOf(mounts, volumes, x, r)
      ensures var p := Planned(mounts, volumes);
        r in p.staging && p.staging[r] == Rewritten(mounts, volumes)[x].path && r in p.org && p.org[r] == mounts[x].path
    {
      PlanLast(mounts, volumes, x, r);
    }
  }

  /** A key's container is planned like the main container: whatever that mounts is staged in it, with
      the path the template asks for. */
  lemma KeyContainerPlan(t: Template, main: Container, k: KeySpec, idx: nat)
    requires WellNamed(t, main, Some(k)) && idx < |k.key.keys|
    ensures var b, i := BuildOf(t, main, Some(k)), |SideCars(t.containers, main.name)| + idx;
      && i < |b.containers| && b.containers[i].name in b.main
      && b.main[b.containers[i].name] == Planned(main.mounts, t.volumes)
      && FindsMounts(b.main[b.containers[i].name], main.mounts, b.containers[i].mounts, t.volumes)
  {
    var cs := PodContainers(t.containers, main, Some(k));
    GroupHas(cs, t.volumes, |SideCars(t.containers, main.name)| + idx);
    PlanFinds(main.mounts, t.volumes);
  }

  /** The volumes added to the pod are exactly those some init or ordinary container mounts, with
      contents that depend on the volume alone, whatever order the maps were walked in. */
  lemma PodVolumesExact(t: Template, main: Container, key: Option<KeySpec>,
                        mi: map<string, PodVolume>, mm: map<string, PodVolume>, name: string)
    requires WellNamed(t, main, key)
    requires var b := BuildOf(t, main, key); Merges(mi, VolumeMaps(b.init)) && Merges(mm, VolumeMaps(b.main))
    ensures name in mi + mm <==> SomeMountsVolume(t.init, t.volumes, name)
                                 || SomeMountsVolume(PodContainers(t.containers, main, key), t.volumes, name)
    ensures name in mi + mm ==> (mi + mm)[name] == PodVolumeOf(t.volumes, name)
  {
    MergedVolumes(t.init, t.volumes, mi, name);
    MergedVolumes(PodContainers(t.containers, main, key), t.volumes, mm, name);
  }

  /** A preinit mount names a volume of the pod, except when only the finalizer mounts that volume:
      the pod spec leaves the finalizer's volumes out. */
  lemma PreInitMountsNameVolumes(t: Template, main: Container, key: Option<KeySpec>,
                                 vi: map<string, PodVolume>, vm: map<string, PodVolume>,
                                 mi: map<string, Mount>, mm: map<string, Mount>, mf: map<string, Mount>)
    requires WellNamed(t, main, key)
    requires var b := BuildOf(t, main, key);
      && Merges(vi, VolumeMaps(b.init)) && Merges(vm, VolumeMaps(b.main))
      && Merges(mi, MountMaps(b.init)) && Merges(mm, MountMaps(b.main)) && Merges(mf, MountMaps(b.finalizers))
    ensures (forall name :: name in mi + mm + mf ==> name in vi + vm) <==>
            (forall name :: MountsTestVolume(t.finalizer.mounts, t.volumes, name) ==>
               SomeMountsVolume(t.init, t.volumes, name)
               || SomeMountsVolume(PodContainers(t.containers, main, key), t.volumes, name))
  {
    var cs := PodContainers(t.containers, main, key);
    forall name
      ensures name in mi ==> SomeMountsVolume(t.init, t.volumes, name)
      ensures name in mm ==> SomeMountsVolume(cs, t.volumes, name)
      ensures name in mf <==> MountsTestVolume(t.finalizer.mounts, t.volumes, name)
      ensures name in vi + vm <==> SomeMountsVolume(t.init, t.volumes, name) || SomeMountsVolume(cs, t.volumes, name)
    {
      PodVolumesExact(t, main, key, vi, vm, name);
      MergedMounts(t.init, t.volumes, mi, name);
      MergedMounts(cs, t.volumes, mm, name);
      MergedMounts([t.finalizer], t.volumes, mf, name);
      TestMountIsMount(t.init, t.volumes, name);
      TestMountIsMount(cs, t.volumes, name);
      assert [t.finalizer][0] == t.finalizer;
    }
  }

  lemma TestMountIsMount(cs: seq<Container>, volumes: seq<Volume>, name: string)
    ensures SomeMountsTestVolume(cs, volumes, name) ==> SomeMountsVolume(cs, volumes, name)
  {
    if i :| 0 <= i < |cs| && MountsTestVolume(cs[i].mounts, volumes, name) {
      assert MountsVolume(cs[i].mounts, volumes, name);
    }
  }
}
