/** What it takes for a job to be accepted, without the order in which the validator walks it
    (api/v1/validator.go). */
module Acceptance {
  import opened Wrappers
  import opened PodSpecs
  import opened Validation
  import opened Lookups
  import opened ArtifactCopies

  predicate TokensFine(specs: seq<TokenSpec>) {
    && (forall i :: 0 <= i < |specs| ==> specs[i].name != "" && specs[i].wellFormed)
    && forall i, j :: 0 <= i < j < |specs| ==> specs[i].name != specs[j].name
  }

  predicate RepoFine(r: RepoSpec, tokens: set<string>) {
    && r.name != ""
    && (r.clonedPath == "" ==>
          && r.url != "" && (r.token == "" || r.token in tokens)
          && !(r.branch != "" && r.rev != ""))
  }

  predicate ReposFine(specs: seq<RepoSpec>, tokens: set<string>) {
    && (forall i :: 0 <= i < |specs| ==> RepoFine(specs[i], tokens))
    && forall i, j :: 0 <= i < j < |specs| ==> specs[i].name != specs[j].name
  }

  /** The first source that is given is known and allowed in this kind of step. */
  predicate SourceFine(s: VolumeSource, stepType: StepType, known: NameSets) {
    && (s.repo.Some? ==> s.repo.value in known.repos - {""})
    && (s.repo.None? && s.artifact.Some? ==> s.artifact.value in known.artifacts - {""})
    && (s.repo.None? && s.artifact.None? && s.token.Some? ==> s.token.value in known.tokens - {""})
    && (s.repo.None? && s.artifact.None? && s.token.None? && s.log ==> stepType.PostStepType?)
    && (s.repo.None? && s.artifact.None? && s.token.None? && !s.log && s.report.Some? ==>
          stepType.PostStepType? && s.report.value == "json")
  }

  predicate ArtifactsFine(specs: seq<ArtifactSpec>, cs: seq<Container>, artifacts: set<string>) {
    && (forall i :: 0 <= i < |specs| ==>
          && specs[i].name != "" && specs[i].container != "" && specs[i].path != []
          && specs[i].name !in artifacts && exists c :: c in cs && c.name == specs[i].container)
    && forall i, j :: 0 <= i < j < |specs| ==> specs[i].name != specs[j].name
  }

  /** A step on its own, given the names known before it. */
  predicate StepFine(s: StepSpec, stepType: StepType, known: NameSets) {
    var t := s.template;
    && s.fieldsOk && t.containers != [] && (t.main == "" ==> |t.containers| == 1)
    && (forall i :: 0 <= i < |t.volumes| ==>
          t.volumes[i].name != "" && SourceFine(t.volumes[i].source, stepType, known))
    && ArtifactsFine(t.artifacts, t.containers, known.artifacts)
  }

  predicate StrategyFine(s: StrategySpec) {
    var p := s.scheduler;
    && s.env != "" && (s.fixed == [] <==> s.dynamic.Some?)
    && ((p.maxPodNum > 0 && p.maxContainersPerPod == 0) || (p.maxPodNum == 0 && p.maxContainersPerPod > 0))
    && p.maxConcurrentNumPerPod > 0
  }

  predicate ExportsFine(exports: seq<ExportSpec>, artifacts: set<string>) {
    forall i :: 0 <= i < |exports| ==> exports[i].path != "" && exports[i].name in artifacts - {""}
  }

  /** Which kind of step step i of a job is. */
  function TypeAt(spec: JobSpec, i: nat): StepType
    requires i < |AllSteps(spec)|
  {
    if i < |spec.preSteps| then PreStepType
    else if i < |AllSteps(spec)| - |spec.postSteps| then MainStepType
    else PostStepType
  }

  /** The names known before step i: every declared token and repository, and the artifacts of the
      steps before it. */
  function KnownAt(spec: JobSpec, i: nat): NameSets
    requires i <= |AllSteps(spec)|
  {
    NameSets(TokenNames(spec.tokens), RepoNames(spec.repos), NamesOf(AllSteps(spec)[..i]))
  }

  predicate SpecFineAt(spec: JobSpec, i: nat)
    requires i < |AllSteps(spec)|
  {
    && StepFine(AllSteps(spec)[i], TypeAt(spec, i), KnownAt(spec, i))
    && (TypeAt(spec, i) != MainStepType ==> AllSteps(spec)[i].name != "")
  }

  predicate StepsFine(spec: JobSpec) {
    forall i :: 0 <= i < |AllSteps(spec)| ==> SpecFineAt(spec, i)
  }

  /*** One list at a time. ***/

  lemma {:induction false} TokensExactly(specs: seq<TokenSpec>, n: NameSets)
    ensures AddTokens(specs, n).Some? <==>
            TokensFine(specs) && forall i :: 0 <= i < |specs| ==> specs[i].name !in n.tokens
    decreases |specs|
  {
    if specs != [] {
      var rest := specs[1..];
      TokensExactly(rest, n.(tokens := n.tokens + {specs[0].name}));
      assert forall i :: 0 < i < |specs| ==> specs[i] == rest[i - 1];
      assert forall i :: 0 <= i < |rest| ==> rest[i] == specs[i + 1];
    }
  }

  lemma {:induction false} ReposExactly(specs: seq<RepoSpec>, n: NameSets)
    ensures AddRepos(specs, n).Some? <==>
            ReposFine(specs, n.tokens) && forall i :: 0 <= i < |specs| ==> specs[i].name !in n.repos
    decreases |specs|
  {
    if specs != [] {
      var rest := specs[1..];
      ReposExactly(rest, n.(repos := n.repos + {specs[0].name}));
      assert forall i :: 0 < i < |specs| ==> specs[i] == rest[i - 1];
      assert forall i :: 0 <= i < |rest| ==> rest[i] == specs[i + 1];
    }
  }

  lemma {:induction false} ArtifactsExactly(specs: seq<ArtifactSpec>, cs: seq<Container>, n: NameSets)
    ensures AddArtifacts(specs, cs, n).Some? <==> ArtifactsFine(specs, cs, n.artifacts)
    decreases |specs|
  {
    if specs != [] {
      var rest := specs[1..];
      ArtifactsExactly(rest, cs, n.(artifacts := n.artifacts + {specs[0].name}));
      assert forall i :: 0 < i < |specs| ==> specs[i] == rest[i - 1];
      assert forall i :: 0 <= i < |rest| ==> rest[i] == specs[i + 1];
      Contained(cs, specs[0].container);
    }
  }

  lemma Contained(cs: seq<Container>, name: string)
    ensures HasContainer(cs, name) <==> exists c :: c in cs && c.name == name
  {
    if c :| c in cs && c.name == name {
      var i :| 0 <= i < |cs| && cs[i] == c;
    }
  }

  lemma SourceExactly(s: VolumeSource, stepType: StepType, n: NameSets)
    ensures SourceOk(s, stepType, n) <==> SourceFine(s, stepType, n)
  {
  }

  lemma StepExactly(s: StepSpec, stepType: StepType, n: NameSets)
    ensures AddStep(s, stepType, n).Some? <==> StepFine(s, stepType, n)
  {
    var t := s.template;
    forall i | 0 <= i < |t.volumes|
      ensures SourceOk(t.volumes[i].source, stepType, n) <==> SourceFine(t.volumes[i].source, stepType, n)
    {
      SourceExactly(t.volumes[i].source, stepType, n);
    }
    ArtifactsExactly(t.artifacts, t.containers, n);
  }

  /*** Lists of steps. ***/

  /** Each step is fine given the artifacts of the steps before it. */
  predicate AllFine(steps: seq<StepSpec>, stepType: StepType, named: bool, n: NameSets)
    decreases |steps|
  {
    steps == [] ||
    (&& StepFine(steps[0], stepType, n) && (named ==> steps[0].name != "")
     && AllFine(steps[1..], stepType, named, n.(artifacts := n.artifacts + ArtifactNames(steps[0].template.artifacts))))
  }

  lemma StepNames(s: StepSpec, stepType: StepType, n: NameSets)
    requires AddStep(s, stepType, n).Some?
    ensures AddStep(s, stepType, n).value == n.(artifacts := n.artifacts + ArtifactNames(s.template.artifacts))
  {
    ArtifactsAdded(s.template.artifacts, s.template.containers, n);
  }

  lemma {:induction false} StepsExactly(steps: seq<StepSpec>, stepType: StepType, n: NameSets)
    ensures AddSteps(steps, stepType, n).Some? <==> AllFine(steps, stepType, true, n)
    ensures AddSteps(steps, stepType, n).Some? ==>
              AddSteps(steps, stepType, n).value == n.(artifacts := n.artifacts + NamesOf(steps))
    decreases |steps|
  {
    if steps == [] {
      assert n.artifacts + NamesOf(steps) == n.artifacts;
    } else {
      var n' := n.(artifacts := n.artifacts + ArtifactNames(steps[0].template.artifacts));
      StepExactly(steps[0], stepType, n);
      if AddStep(steps[0], stepType, n).Some? {
        StepNames(steps[0], stepType, n);
      }
      StepsExactly(steps[1..], stepType, n');
      assert n'.artifacts + NamesOf(steps[1..]) == n.artifacts + NamesOf(steps);
    }
  }

  predicate EachFine(steps: seq<StepSpec>, stepType: StepType, named: bool, n: NameSets) {
    forall i :: 0 <= i < |steps| ==> FineAt(steps, stepType, named, n, i)
  }

  lemma {:induction false} AllFineAt(steps: seq<StepSpec>, stepType: StepType, named: bool, n: NameSets)
    ensures AllFine(steps, stepType, named, n) <==> EachFine(steps, stepType, named, n)
    decreases |steps|
  {
    if steps != [] {
      var n' := n.(artifacts := n.artifacts + ArtifactNames(steps[0].template.artifacts));
      AllFineAt(steps[1..], stepType, named, n');
      FineFirst(steps, stepType, named, n);
      EachFineNext(steps, stepType, named, n);
    }
  }

  lemma EachFineNext(steps: seq<StepSpec>, stepType: StepType, named: bool, n: NameSets)
    requires steps != []
    ensures var n' := n.(artifacts := n.artifacts + ArtifactNames(steps[0].template.artifacts));
      EachFine(steps, stepType, named, n) <==> FineAt(steps, stepType, named, n, 0) && EachFine(steps[1..], stepType, named, n')
  {
    var n' := n.(artifacts := n.artifacts + ArtifactNames(steps[0].template.artifacts));
    var rest := steps[1..];
    forall i | 0 <= i < |rest| ensures FineAt(rest, stepType, named, n', i) <==> FineAt(steps, stepType, named, n, i + 1) {
      FineNext(steps, stepType, named, n, i);
    }
    if FineAt(steps, stepType, named, n, 0) && EachFine(rest, stepType, named, n') {
      forall i | 0 <= i < |steps| ensures FineAt(steps, stepType, named, n, i) {
        assert i > 0 ==> FineAt(rest, stepType, named, n', i - 1);
      }
    }
  }

  predicate FineAt(steps: seq<StepSpec>, stepType: StepType, named: bool, n: NameSets, i: nat)
    requires i < |steps|
  {
    && StepFine(steps[i], stepType, n.(artifacts := n.artifacts + NamesOf(steps[..i])))
    && (named ==> steps[i].name != "")
  }

  lemma FineFirst(steps: seq<StepSpec>, stepType: StepType, named: bool, n: NameSets)
    requires steps != []
    ensures FineAt(steps, stepType, named, n, 0) <==> StepFine(steps[0], stepType, n) && (named ==> steps[0].name != "")
  {
    assert NamesOf(steps[..0]) == {} && n.artifacts + {} == n.artifacts;
  }

  lemma FineNext(steps: seq<StepSpec>, stepType: StepType, named: bool, n: NameSets, i: nat)
    requires i + 1 < |steps|
    ensures var n' := n.(artifacts := n.artifacts + ArtifactNames(steps[0].template.artifacts));
      FineAt(steps[1..], stepType, named, n', i) <==> FineAt(steps, stepType, named, n, i + 1)
  {
    var names := ArtifactNames(steps[0].template.artifacts);
    assert steps[..i + 1][0] == steps[0] && steps[..i + 1][1..] == steps[1..][..i];
    assert (n.artifacts + names) + NamesOf(steps[1..][..i]) == n.artifacts + NamesOf(steps[..i + 1]);
  }

  /*** The whole job. ***/

  /** The steps in three parts: the presteps, the key task and the main step, the poststeps. */
  function MiddleSteps(spec: JobSpec): seq<StepSpec> {
    DynamicSteps(spec) + [spec.mainStep]
  }

  lemma {:induction false} NamesOfConcat(a: seq<StepSpec>, b: seq<StepSpec>)
    ensures NamesOf(a + b) == NamesOf(a) + NamesOf(b)
    decreases |a|
  {
    if a == [] {
      assert a + b == b;
    } else {
      NamesOfConcat(a[1..], b);
      assert (a + b)[0] == a[0] && (a + b)[1..] == a[1..] + b;
    }
  }

  /** Step i of a part that begins at position from. */
  lemma PartAt(spec: JobSpec, from: nat, part: seq<StepSpec>, stepType: StepType, i: nat)
    requires from + |part| <= |AllSteps(spec)| && AllSteps(spec)[from..from + |part|] == part
    requires i < |part| && TypeAt(spec, from + i) == stepType
    ensures FineAt(part, stepType, stepType != MainStepType, KnownAt(spec, from), i) <==> SpecFineAt(spec, from + i)
  {
    var all, n := AllSteps(spec), KnownAt(spec, from);
    PartPrefix(all, from, part, i);
    NamesOfConcat(all[..from], part[..i]);
    assert n.(artifacts := n.artifacts + NamesOf(part[..i])) == KnownAt(spec, from + i);
  }

  lemma PartPrefix(all: seq<StepSpec>, from: nat, part: seq<StepSpec>, i: nat)
    requires from + |part| <= |all| && all[from..from + |part|] == part && i < |part|
    ensures all[from + i] == part[i] && all[..from + i] == all[..from] + part[..i]
  {
    var slice := all[from..from + |part|];
    assert slice[i] == all[from + i] && slice[..i] == all[from..from + i];
    assert all[..from + i] == all[..from] + all[from..from + i];
  }

  predicate RangeFine(spec: JobSpec, from: nat, to: nat)
    requires to <= |AllSteps(spec)|
  {
    forall i :: from <= i < to ==> SpecFineAt(spec, i)
  }

  /** The part of the steps of one kind that begins at position from. */
  predicate PartOf(spec: JobSpec, from: nat, part: seq<StepSpec>, stepType: StepType) {
    && from + |part| <= |AllSteps(spec)| && AllSteps(spec)[from..from + |part|] == part
    && forall i :: from <= i < from + |part| ==> TypeAt(spec, i) == stepType
  }

  lemma PartFine(spec: JobSpec, from: nat, to: nat, part: seq<StepSpec>, stepType: StepType)
    requires PartOf(spec, from, part, stepType) && to == from + |part|
    ensures AllFine(part, stepType, stepType != MainStepType, KnownAt(spec, from)) <==> RangeFine(spec, from, to)
  {
    AllFineAt(part, stepType, stepType != MainStepType, KnownAt(spec, from));
    if RangeFine(spec, from, from + |part|) {
      RangeToPart(spec, from, part, stepType);
    }
    if EachFine(part, stepType, stepType != MainStepType, KnownAt(spec, from)) {
      PartToRange(spec, from, part, stepType);
    }
  }

  lemma RangeToPart(spec: JobSpec, from: nat, part: seq<StepSpec>, stepType: StepType)
    requires PartOf(spec, from, part, stepType) && RangeFine(spec, from, from + |part|)
    ensures EachFine(part, stepType, stepType != MainStepType, KnownAt(spec, from))
  {
    var named := stepType != MainStepType;
    forall i | 0 <= i < |part| ensures FineAt(part, stepType, named, KnownAt(spec, from), i) {
      PartAt(spec, from, part, stepType, i);
    }
  }

  lemma PartToRange(spec: JobSpec, from: nat, part: seq<StepSpec>, stepType: StepType)
    requires PartOf(spec, from, part, stepType)
    requires EachFine(part, stepType, stepType != MainStepType, KnownAt(spec, from))
    ensures RangeFine(spec, from, from + |part|)
  {
    forall i | from <= i < from + |part| ensures SpecFineAt(spec, i) {
      PartAt(spec, from, part, stepType, i - from);
    }
  }

  /** A job is accepted exactly when its log settings are fine, its tokens and repositories are distinct
      and complete, every repository that is not already cloned names a declared token, every step mounts
      only declared tokens and repositories and artifacts of earlier steps, every artifact is new and of a
      container of its step, only poststeps mount the log or the report, the strategy has one key source
      and one positive limit, and every export names an artifact of some step. */
  lemma AcceptedExactly(spec: JobSpec)
    ensures Accepted(spec) <==>
            && spec.logOk && TokensFine(spec.tokens) && ReposFine(spec.repos, TokenNames(spec.tokens))
            && (spec.strategy.Some? ==> StrategyFine(spec.strategy.value))
            && StepsFine(spec) && ExportsFine(spec.exports, NamesOf(AllSteps(spec)))
  {
    TokensExactly(spec.tokens, NoNames);
    if AddTokens(spec.tokens, NoNames).Some? {
      TokensAdded(spec.tokens, NoNames);
      var n1 := AddTokens(spec.tokens, NoNames).value;
      assert n1 == NameSets(TokenNames(spec.tokens), {}, {});
      ReposExactly(spec.repos, n1);
      if AddRepos(spec.repos, n1).Some? {
        ReposAdded(spec.repos, n1);
        assert AddRepos(spec.repos, n1).value == SetUp(spec);
        AllStepsExactly(spec);
      }
    }
  }

  lemma AllStepsExactly(spec: JobSpec)
    ensures AddAllSteps(spec, SetUp(spec)).Some? <==>
            && (spec.strategy.Some? ==> StrategyFine(spec.strategy.value))
            && StepsFine(spec) && ExportsFine(spec.exports, NamesOf(AllSteps(spec)))
  {
    PartsFine(spec);
    PartsAccepted(spec);
  }

  lemma PartsAccepted(spec: JobSpec)
    ensures |spec.preSteps| + |MiddleSteps(spec)| + |spec.postSteps| == |AllSteps(spec)|
    ensures AddAllSteps(spec, SetUp(spec)).Some? <==>
            && (spec.strategy.Some? ==> StrategyFine(spec.strategy.value))
            && AllFine(spec.preSteps, PreStepType, true, KnownAt(spec, 0))
            && AllFine(MiddleSteps(spec), MainStepType, false, KnownAt(spec, |spec.preSteps|))
            && AllFine(spec.postSteps, PostStepType, true, KnownAt(spec, |spec.preSteps| + |MiddleSteps(spec)|))
            && ExportsFine(spec.exports, NamesOf(AllSteps(spec)))
  {
    var pre, mid, post := spec.preSteps, MiddleSteps(spec), spec.postSteps;
    KnownParts(spec);
    StepsExactly(pre, PreStepType, SetUp(spec));
    MiddleExactly(spec, KnownAt(spec, |pre|));
    StepsExactly(post, PostStepType, KnownAt(spec, |pre| + |mid|));
    ExportsExactly(spec.exports, KnownAt(spec, |pre| + |mid|).(artifacts := NamesOf(AllSteps(spec))));
  }

  lemma ExportsExactly(exports: seq<ExportSpec>, n: NameSets)
    ensures ExportsOk(exports, n) <==> ExportsFine(exports, n.artifacts)
  {
  }

  lemma PartsFine(spec: JobSpec)
    ensures var pre, mid, post := spec.preSteps, MiddleSteps(spec), spec.postSteps;
      && |pre| + |mid| + |post| == |AllSteps(spec)|
      && (StepsFine(spec) <==>
            && AllFine(pre, PreStepType, true, KnownAt(spec, 0))
            && AllFine(mid, MainStepType, false, KnownAt(spec, |pre|))
            && AllFine(post, PostStepType, true, KnownAt(spec, |pre| + |mid|)))
  {
    var pre, mid, post := spec.preSteps, MiddleSteps(spec), spec.postSteps;
    Lengths(spec);
    PreFine(spec);
    MiddleFine(spec);
    PostFine(spec);
    RangesFine(spec, |pre|, |pre| + |mid|);
  }

  lemma PreFine(spec: JobSpec)
    ensures |spec.preSteps| <= |AllSteps(spec)|
    ensures AllFine(spec.preSteps, PreStepType, true, KnownAt(spec, 0)) <==> RangeFine(spec, 0, |spec.preSteps|)
  {
    PrePart(spec);
    PartFine(spec, 0, |spec.preSteps|, spec.preSteps, PreStepType);
  }

  lemma MiddleFine(spec: JobSpec)
    ensures |spec.preSteps| + |MiddleSteps(spec)| <= |AllSteps(spec)|
    ensures AllFine(MiddleSteps(spec), MainStepType, false, KnownAt(spec, |spec.preSteps|)) <==>
            RangeFine(spec, |spec.preSteps|, |spec.preSteps| + |MiddleSteps(spec)|)
  {
    MiddlePart(spec);
    PartFine(spec, |spec.preSteps|, |spec.preSteps| + |MiddleSteps(spec)|, MiddleSteps(spec), MainStepType);
  }

  lemma PostFine(spec: JobSpec)
    ensures |spec.preSteps| + |MiddleSteps(spec)| + |spec.postSteps| == |AllSteps(spec)|
    ensures AllFine(spec.postSteps, PostStepType, true, KnownAt(spec, |spec.preSteps| + |MiddleSteps(spec)|)) <==>
            RangeFine(spec, |spec.preSteps| + |MiddleSteps(spec)|, |AllSteps(spec)|)
  {
    var q := |spec.preSteps| + |MiddleSteps(spec)|;
    assert q + |spec.postSteps| == |AllSteps(spec)| by {
      Lengths(spec);
    }
    assert AllFine(spec.postSteps, PostStepType, true, KnownAt(spec, q)) <==> RangeFine(spec, q, q + |spec.postSteps|) by {
      PostPart(spec);
      PartFine(spec, q, q + |spec.postSteps|, spec.postSteps, PostStepType);
    }
  }

  lemma RangesFine(spec: JobSpec, p: nat, q: nat)
    requires p <= q <= |AllSteps(spec)|
    ensures StepsFine(spec) <==> RangeFine(spec, 0, p) && RangeFine(spec, p, q) && RangeFine(spec, q, |AllSteps(spec)|)
  {
  }

  lemma Lengths(spec: JobSpec)
    ensures |spec.preSteps| + |MiddleSteps(spec)| + |spec.postSteps| == |AllSteps(spec)|
  {
    assert AllSteps(spec) == spec.preSteps + MiddleSteps(spec) + spec.postSteps;
  }

  lemma PrePart(spec: JobSpec)
    ensures PartOf(spec, 0, spec.preSteps, PreStepType)
  {
    assert AllSteps(spec)[0..|spec.preSteps|] == spec.preSteps;
  }

  lemma MiddlePart(spec: JobSpec)
    ensures PartOf(spec, |spec.preSteps|, MiddleSteps(spec), MainStepType)
  {
    Lengths(spec);
    var p := |spec.preSteps|;
    assert AllSteps(spec) == spec.preSteps + (MiddleSteps(spec) + spec.postSteps);
    assert AllSteps(spec)[p..p + |MiddleSteps(spec)|] == MiddleSteps(spec);
  }

  lemma PostPart(spec: JobSpec)
    ensures PartOf(spec, |spec.preSteps| + |MiddleSteps(spec)|, spec.postSteps, PostStepType)
  {
    Lengths(spec);
    var q := |spec.preSteps| + |MiddleSteps(spec)|;
    assert AllSteps(spec) == (spec.preSteps + MiddleSteps(spec)) + spec.postSteps;
    assert AllSteps(spec)[q..q + |spec.postSteps|] == spec.postSteps;
  }

  lemma KnownParts(spec: JobSpec)
    ensures KnownAt(spec, 0) == SetUp(spec)
    ensures var pre, mid, post := spec.preSteps, MiddleSteps(spec), spec.postSteps;
      var n, p := SetUp(spec), |pre|;
      && p + |mid| + |post| == |AllSteps(spec)|
      && KnownAt(spec, p) == n.(artifacts := n.artifacts + NamesOf(pre))
      && KnownAt(spec, p + |mid|) == KnownAt(spec, p).(artifacts := KnownAt(spec, p).artifacts + NamesOf(mid))
      && NamesOf(AllSteps(spec)) == KnownAt(spec, p + |mid|).artifacts + NamesOf(post)
  {
    var pre, mid, post := spec.preSteps, MiddleSteps(spec), spec.postSteps;
    var all := AllSteps(spec);
    assert all == pre + (mid + post) && all == (pre + mid) + post;
    assert all[..0] == [] && all[..|pre|] == pre && all[..|pre| + |mid|] == pre + mid;
    assert NamesOf([]) == {} && {} + NamesOf(pre) == NamesOf(pre);
    NamesOfConcat(pre, mid);
    NamesOfConcat(pre + mid, post);
  }

  lemma MiddleExactly(spec: JobSpec, n: NameSets)
    ensures AddMain(spec, n).Some? <==>
            (spec.strategy.Some? ==> StrategyFine(spec.strategy.value)) && AllFine(MiddleSteps(spec), MainStepType, false, n)
    ensures AddMain(spec, n).Some? ==>
              AddMain(spec, n).value == n.(artifacts := n.artifacts + NamesOf(MiddleSteps(spec)))
  {
    var main := spec.mainStep;
    if DynamicSteps(spec) == [] {
      assert MiddleSteps(spec) == [main];
      OneStep(main, n);
    } else {
      var key := spec.strategy.value.dynamic.value;
      var n' := n.(artifacts := n.artifacts + ArtifactNames(key.template.artifacts));
      assert MiddleSteps(spec) == [key] + [main] && MiddleSteps(spec)[1..] == [main];
      StepExactly(key, MainStepType, n);
      if AddStep(key, MainStepType, n).Some? {
        StepNames(key, MainStepType, n);
      }
      OneStep(main, n');
      assert n'.artifacts + NamesOf([main]) == n.artifacts + NamesOf(MiddleSteps(spec));
    }
  }

  lemma OneStep(s: StepSpec, n: NameSets)
    ensures AddStep(s, MainStepType, n).Some? <==> AllFine([s], MainStepType, false, n)
    ensures AddStep(s, MainStepType, n).Some? ==>
              AddStep(s, MainStepType, n).value == n.(artifacts := n.artifacts + NamesOf([s]))
  {
    assert [s][1..] == [] && NamesOf([]) == {};
    StepExactly(s, MainStepType, n);
    if AddStep(s, MainStepType, n).Some? {
      StepNames(s, MainStepType, n);
    }
  }
}
