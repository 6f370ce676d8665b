/** Splitting strategy keys over tasks, and subtasks over concurrent groups (api/v1/scheduler.go), as
    functions; module SchedulerLoops has the loops.

    The source computes with uint32.  Every sum below is reduced modulo WORD where the source's
    type does so, a slice expression whose bounds are out of order is the source's run-time panic,
    and so is a division by zero. */
module Scheduler {
  import opened Seqs

  const WORD: nat := 0x1_0000_0000

  /** The conversion uint32(x). */
  function Cast(x: int): nat {
    x % WORD
  }

  /** Addition in uint32, written without a remainder (see Add32Wraps). */
  function Add32(a: nat, b: nat): (r: nat)
    requires a < WORD && b < WORD
  {
    if a + b < WORD then a + b else a + b - WORD
  }

  lemma Add32Wraps(a: nat, b: nat)
    requires a < WORD && b < WORD
    ensures Add32(a, b) == (a + b) % WORD
  {
  }

  datatype StrategyKey = StrategyKey(concurrentIdx: nat, keys: seq<string>)

  datatype Outcome =
    | Scheduled(tasks: seq<StrategyKey>)
    | BuildFailed(at: nat)
    | Mismatch(required: nat, scheduled: nat)
    | Panic
    | Unspecified

  datatype SchedulerParams = SchedulerParams(maxPodNum: int, maxContainersPerPod: int, maxConcurrentNumPerPod: int)

  /*** Specification: consecutive pieces. ***/

  /** Consecutive pieces of m elements; the last piece takes what is left. */
  function Chunks<T>(s: seq<T>, m: nat): (cs: seq<seq<T>>)
    requires m > 0
    ensures |cs| > 0
    decreases |s|
  {
    if |s| <= m then [s] else [s[..m]] + Chunks(s[m..], m)
  }

  /** p pieces of q elements fit into n elements. */
  predicate Fits(n: int, q: nat, p: nat) {
    if p == 0 then n >= 0 else n >= q && Fits(n - q, q, p - 1)
  }

  lemma {:induction false} FitsMul(n: nat, q: nat, p: nat)
    requires q * p <= n
    ensures Fits(n, q, p)
    ensures q > 0 ==> p <= n
    ensures p > 0 ==> q <= n
    decreases p
  {
    if p > 0 {
      assert q * p == q + q * (p - 1);
      assert q * (p - 1) >= 0;
      FitsMul(n - q, q, p - 1);
    }
  }

  /** p consecutive pieces: q elements each, except that the last takes the rest. */
  function PodChunks<T>(s: seq<T>, q: nat, p: nat): (cs: seq<seq<T>>)
    requires p > 0 && Fits(|s|, q, p)
    ensures |cs| == p
    decreases p
  {
    if p == 1 then [s] else [s[..q]] + PodChunks(s[q..], q, p - 1)
  }

  function Singles<T>(s: seq<T>): (cs: seq<seq<T>>)
    ensures |cs| == |s|
  {
    seq(|s|, i requires 0 <= i < |s| => [s[i]])
  }

  function Numbered(cs: seq<seq<string>>): (ts: seq<StrategyKey>)
    ensures |ts| == |cs|
  {
    seq(|cs|, i requires 0 <= i < |cs| => StrategyKey(i, cs[i]))
  }

  function KeysOf(ts: seq<StrategyKey>): (ks: seq<seq<string>>)
    ensures |ks| == |ts|
  {
    seq(|ts|, i requires 0 <= i < |ts| => ts[i].keys)
  }

  function PodPieces(keys: seq<string>, p: nat): seq<seq<string>>
    requires p > 0
  {
    if |keys| < p then Singles(keys)
    else
      DivMul(|keys|, p);
      FitsMul(|keys|, |keys| / p, p);
      PodChunks(keys, |keys| / p, p)
  }

  /** The tasks are built in order and the first build that fails ends the schedule. */
  function Build(ts: seq<StrategyKey>, fails: nat -> bool, from: nat): Outcome
    requires from <= |ts|
    decreases |ts| - from
  {
    if from == |ts| then Scheduled(ts)
    else if fails(from) then BuildFailed(from)
    else Build(ts, fails, from + 1)
  }

  /** Whether uint32 arithmetic breaks the max-containers loop: the quotient by zero, or the loop
      counter wrapping because the quotient is the largest uint32. */
  predicate ContainersPanic(n: nat, m: nat) {
    (m == 0 && n > 0) || (m == 1 && n == WORD - 1)
  }

  function ContainersOutcome(keys: seq<string>, m: nat, fails: nat -> bool): Outcome {
    if m == 0 then
      if keys == [] then Build([StrategyKey(0, keys)], fails, 0) else Panic
    else
      var out := Build(Numbered(Chunks(keys, m)), fails, 0);
      if out.Scheduled? && ContainersPanic(|keys|, m) then Panic else out
  }

  function PodsOutcome(keys: seq<string>, p: nat, fails: nat -> bool): Outcome {
    if p == 0 then Panic else Build(Numbered(PodPieces(keys, p)), fails, 0)
  }

  /*** Specification: any number of keys. ***/

  /** The keys that the truncated count covers: all of them below 2^32 keys. */
  function Counted(keys: seq<string>): (counted: seq<string>)
    ensures |counted| == Cast(|keys|) < WORD
    ensures |keys| < WORD ==> counted == keys
  {
    CastBelow(|keys|);
    keys[..Cast(|keys|)]
  }

  function Uncounted(keys: seq<string>): (rest: seq<string>)
    ensures Counted(keys) + rest == keys
  {
    CastBelow(|keys|);
    keys[Cast(|keys|)..]
  }

  lemma CastBelow(n: nat)
    ensures Cast(n) <= n && Cast(n) < WORD
    ensures n < WORD ==> Cast(n) == n
  {
  }

  /** The last task takes the rest as well. */
  function WithRest(ts: seq<StrategyKey>, rest: seq<string>): (r: seq<StrategyKey>)
    ensures |r| == |ts|
  {
    if ts == [] then ts
    else
      var last := ts[|ts| - 1];
      ts[|ts| - 1 := last.(keys := last.keys + rest)]
  }

  function Extended(out: Outcome, rest: seq<string>): Outcome {
    if out.Scheduled? then Scheduled(WithRest(out.tasks, rest)) else out
  }

  /** The slice of the last round reaches to the end of the list, so that it takes the uncounted keys
      too, unless the counted keys are used up by then. */
  function ContainersResult(keys: seq<string>, m: nat, fails: nat -> bool): Outcome {
    var counted := Counted(keys);
    if |counted| <= m then Build([StrategyKey(0, keys)], fails, 0)
    else if m > 0 && |counted| % m == 0 then ContainersOutcome(counted, m, fails)
    else Extended(ContainersOutcome(counted, m, fails), Uncounted(keys))
  }

  function PodsResult(keys: seq<string>, p: nat, fails: nat -> bool): Outcome {
    var counted := Counted(keys);
    if |counted| < p then PodsOutcome(counted, p, fails) else Extended(PodsOutcome(counted, p, fails), Uncounted(keys))
  }

  /** Whether the schedule hands out the uncounted keys. */
  predicate ContainersKeepAll(n: nat, m: nat) {
    n < WORD || Cast(n) <= m || m == 0 || Cast(n) % m != 0
  }

  predicate PodsKeepAll(n: nat, p: nat) {
    n < WORD || Cast(n) >= p
  }

  /*** What the pieces are. ***/

  lemma DivMul(n: nat, p: nat)
    requires p > 0
    ensures n / p * p <= n < n / p * p + p
    ensures n % p == n - n / p * p
  {
  }

  lemma DivUnique(n: nat, p: nat, q: nat)
    requires p > 0 && q * p <= n < q * p + p
    ensures n / p == q
  {
    DivMul(n, p);
    var d := n / p - q;
    assert d * p == n / p * p - q * p;
    assert d >= 1 ==> d * p >= p;
    assert d <= -1 ==> d * p + p <= 0;
  }

  lemma {:induction false} ChunksPartition<T>(s: seq<T>, m: nat)
    requires m > 0
    ensures Flatten(Chunks(s, m)) == s
    decreases |s|
  {
    var cs := Chunks(s, m);
    if |s| <= m {
      assert Flatten(cs) == s + Flatten<T>([]);
    } else {
      ChunksPartition(s[m..], m);
      assert cs[1..] == Chunks(s[m..], m);
      assert s == s[..m] + s[m..];
    }
  }

  /** ceil(n / m). */
  function CeilDiv(n: nat, m: nat): nat
    requires m > 0
  {
    (n + m - 1) / m
  }

  lemma CeilDivStep(n: nat, m: nat)
    requires m > 0 && n > m
    ensures CeilDiv(n, m) == CeilDiv(n - m, m) + 1
  {
    var q := (n - 1) / m;
    DivMul(n - 1, m);
    assert (q + 1) * m == q * m + m;
    DivUnique(n - 1 + m, m, q + 1);
  }

  lemma CeilDivOne(n: nat, m: nat)
    requires 0 < n <= m
    ensures CeilDiv(n, m) == 1
  {
    DivUnique(n + m - 1, m, 1);
  }

  /** All pieces but the last are full, the last is neither empty nor oversized, and there are
      ceil(n / m) of them; the empty sequence is one empty piece. */
  lemma {:induction false} ChunksSizes<T>(s: seq<T>, m: nat)
    requires m > 0
    ensures s == [] ==> Chunks(s, m) == [[]]
    ensures s != [] ==> |Chunks(s, m)| == CeilDiv(|s|, m)
    ensures s != [] ==> 1 <= |Chunks(s, m)[|Chunks(s, m)| - 1]| <= m
    ensures forall i :: 0 <= i < |Chunks(s, m)| - 1 ==> |Chunks(s, m)[i]| == m
    decreases |s|
  {
    if |s| <= m {
      if s != [] {
        CeilDivOne(|s|, m);
      }
    } else {
      ChunksSizes(s[m..], m);
      CeilDivStep(|s|, m);
      var cs, rest := Chunks(s, m), Chunks(s[m..], m);
      assert forall i :: 1 <= i < |cs| ==> cs[i] == rest[i - 1];
    }
  }

  lemma {:induction false} PodChunksPartition<T>(s: seq<T>, q: nat, p: nat)
    requires p > 0 && Fits(|s|, q, p)
    ensures Flatten(PodChunks(s, q, p)) == s
    decreases p
  {
    var cs := PodChunks(s, q, p);
    if p == 1 {
      assert Flatten(cs) == s + Flatten<T>([]);
    } else {
      PodChunksPartition(s[q..], q, p - 1);
      assert cs[1..] == PodChunks(s[q..], q, p - 1);
      assert s == s[..q] + s[q..];
    }
  }

  lemma {:induction false} PodChunksSizes<T>(s: seq<T>, q: nat, p: nat)
    requires p > 0 && Fits(|s|, q, p)
    ensures forall i :: 0 <= i < p - 1 ==> |PodChunks(s, q, p)[i]| == q
    ensures |PodChunks(s, q, p)[p - 1]| == |s| - q * (p - 1)
    decreases p
  {
    if p > 1 {
      assert q * (p - 1) == q + q * (p - 2);
      PodChunksSizes(s[q..], q, p - 1);
      var cs, rest := PodChunks(s, q, p), PodChunks(s[q..], q, p - 1);
      assert forall i :: 1 <= i < |cs| ==> cs[i] == rest[i - 1];
    }
  }

  lemma EnoughKeys(n: nat, p: nat)
    requires 0 < p <= n
    ensures 1 <= n / p <= n && Fits(n, n / p, p)
  {
    var q := n / p;
    DivMul(n, p);
    FitsMul(n, q, p);
    assert 0 * p == 0;
  }

  lemma {:induction false} SinglesPartition<T>(s: seq<T>)
    ensures Flatten(Singles(s)) == s
  {
    if s != [] {
      SinglesPartition(s[1..]);
      assert Singles(s)[1..] == Singles(s[1..]);
    }
  }

  lemma PodPiecesSizes(keys: seq<string>, p: nat)
    requires p > 0
    ensures Flatten(PodPieces(keys, p)) == keys
    ensures |PodPieces(keys, p)| == if |keys| < p then |keys| else p
    ensures |keys| < p ==> forall i :: 0 <= i < |keys| ==> |PodPieces(keys, p)[i]| == 1
    ensures |keys| >= p ==> |keys| / p >= 1
    ensures |keys| >= p ==> forall i :: 0 <= i < p - 1 ==> |PodPieces(keys, p)[i]| == |keys| / p
    ensures |keys| >= p ==> |PodPieces(keys, p)[p - 1]| == |keys| / p + |keys| % p
  {
    if |keys| < p {
      SinglesPartition(keys);
    } else {
      EnoughKeys(|keys|, p);
      PodChunksPartition(keys, |keys| / p, p);
      PodChunksSizes(keys, |keys| / p, p);
      LastPiece(|keys|, p);
    }
  }

  lemma LastPiece(n: nat, p: nat)
    requires p > 0
    ensures n - n / p * (p - 1) == n / p + n % p
  {
    DivMul(n, p);
    assert n / p * p == n / p + n / p * (p - 1);
  }

  lemma KeysOfNumbered(cs: seq<seq<string>>)
    ensures KeysOf(Numbered(cs)) == cs
  {
  }

  lemma {:induction false} BuildOutcome(ts: seq<StrategyKey>, fails: nat -> bool, from: nat)
    requires from <= |ts|
    ensures Build(ts, fails, from).Scheduled? ==> Build(ts, fails, from).tasks == ts
    ensures Build(ts, fails, from) == Scheduled(ts) <==> forall i :: from <= i < |ts| ==> !fails(i)
    ensures !Build(ts, fails, from).Scheduled? ==>
              exists i :: from <= i < |ts| && fails(i) && Build(ts, fails, from) == BuildFailed(i)
                && forall j :: from <= j < i ==> !fails(j)
    decreases |ts| - from
  {
    if from < |ts| && !fails(from) {
      BuildOutcome(ts, fails, from + 1);
    }
  }

  /*** Main results about a schedule. ***/

  lemma WithNoRest(ts: seq<StrategyKey>)
    ensures WithRest(ts, []) == ts
  {
    if ts != [] {
      var last := ts[|ts| - 1];
      assert last.keys + [] == last.keys;
    }
  }

  lemma FlattenWithRest(ts: seq<StrategyKey>, rest: seq<string>)
    requires ts != []
    ensures Flatten(KeysOf(WithRest(ts, rest))) == Flatten(KeysOf(ts)) + rest
    ensures forall i :: 0 <= i < |ts| ==> WithRest(ts, rest)[i].concurrentIdx == ts[i].concurrentIdx
  {
    var n := |ts| - 1;
    var init := KeysOf(ts[..n]);
    assert KeysOf(ts) == init + [ts[n].keys];
    assert KeysOf(WithRest(ts, rest)) == init + [ts[n].keys + rest];
    FlattenSnoc(init, ts[n].keys);
    FlattenSnoc(init, ts[n].keys + rest);
    assert Flatten(init) + (ts[n].keys + rest) == (Flatten(init) + ts[n].keys) + rest;
  }

  /** Below 2^32 keys the truncation does nothing. */
  lemma ShortLists(keys: seq<string>, m: nat, fails: nat -> bool)
    requires |keys| < WORD
    ensures ContainersResult(keys, m, fails) == ContainersOutcome(keys, m, fails)
    ensures PodsResult(keys, m, fails) == PodsOutcome(keys, m, fails)
  {
    assert Uncounted(keys) == [];
    var c, p := ContainersOutcome(keys, m, fails), PodsOutcome(keys, m, fails);
    if c.Scheduled? {
      WithNoRest(c.tasks);
    }
    if p.Scheduled? {
      WithNoRest(p.tasks);
    }
    if 0 < m && |keys| <= m {
      assert Numbered(Chunks(keys, m)) == [StrategyKey(0, keys)];
    }
  }

  lemma PiecesOfContainers(keys: seq<string>, m: nat, fails: nat -> bool)
    requires ContainersOutcome(keys, m, fails).Scheduled?
    ensures var ts := ContainersOutcome(keys, m, fails).tasks;
      && Flatten(KeysOf(ts)) == keys
      && (forall i :: 0 <= i < |ts| ==> ts[i].concurrentIdx == i)
      && (keys == [] ==> ts == [StrategyKey(0, [])])
      && (keys != [] ==> m > 0 && |ts| == CeilDiv(|keys|, m) && 1 <= |ts[|ts| - 1].keys| <= m)
      && (forall i :: 0 <= i < |ts| - 1 ==> |ts[i].keys| == m)
  {
    if m == 0 {
      BuildOutcome([StrategyKey(0, keys)], fails, 0);
      assert KeysOf([StrategyKey(0, keys)]) == [keys];
      FlattenSnoc([], keys);
    } else {
      BuildOutcome(Numbered(Chunks(keys, m)), fails, 0);
      KeysOfNumbered(Chunks(keys, m));
      ChunksPartition(keys, m);
      ChunksSizes(keys, m);
    }
  }

  /** A max-containers schedule that succeeds hands out every key once and in order to consecutively
      numbered tasks, except that it drops what lies beyond the truncated count when that count is a
      proper multiple of the limit.  Below 2^32 keys there are ceil(n / m) tasks, all full but the
      last. */
  lemma MaxContainersSchedule(keys: seq<string>, m: nat, fails: nat -> bool)
    requires ContainersResult(keys, m, fails).Scheduled?
    ensures var ts := ContainersResult(keys, m, fails).tasks;
      && Flatten(KeysOf(ts)) == (if ContainersKeepAll(|keys|, m) then keys else Counted(keys))
      && (forall i :: 0 <= i < |ts| ==> ts[i].concurrentIdx == i)
      && (keys == [] ==> ts == [StrategyKey(0, [])])
      && (0 < |keys| < WORD ==>
            && m > 0 && |ts| == CeilDiv(|keys|, m) && 1 <= |ts[|ts| - 1].keys| <= m
            && (forall i :: 0 <= i < |ts| - 1 ==> |ts[i].keys| == m))
  {
    if |keys| < WORD {
      ShortLists(keys, m, fails);
      PiecesOfContainers(keys, m, fails);
    } else {
      LongContainersSchedule(keys, m, fails);
    }
  }

  lemma LongContainersSchedule(keys: seq<string>, m: nat, fails: nat -> bool)
    requires |keys| >= WORD && ContainersResult(keys, m, fails).Scheduled?
    ensures var ts := ContainersResult(keys, m, fails).tasks;
      && Flatten(KeysOf(ts)) == (if ContainersKeepAll(|keys|, m) then keys else Counted(keys))
      && (forall i :: 0 <= i < |ts| ==> ts[i].concurrentIdx == i)
  {
    var counted := Counted(keys);
    if |counted| <= m {
      BuildOutcome([StrategyKey(0, keys)], fails, 0);
      assert KeysOf([StrategyKey(0, keys)]) == [keys];
      FlattenSnoc([], keys);
    } else {
      PiecesOfContainers(counted, m, fails);
      var ts := ContainersOutcome(counted, m, fails).tasks;
      if |counted| % m != 0 {
        assert KeysOf([]) == [];
        FlattenWithRest(ts, Uncounted(keys));
      }
    }
  }

  lemma PiecesOfPods(keys: seq<string>, p: nat, fails: nat -> bool)
    requires PodsOutcome(keys, p, fails).Scheduled?
    ensures var ts := PodsOutcome(keys, p, fails).tasks;
      && Flatten(KeysOf(ts)) == keys
      && (forall i :: 0 <= i < |ts| ==> ts[i].concurrentIdx == i)
      && p > 0
      && |ts| == (if |keys| < p then |keys| else p)
      && (forall i :: 0 <= i < |ts| ==> |ts[i].keys| >= 1)
      && (|keys| >= p ==>
            && (forall i :: 0 <= i < p - 1 ==> |ts[i].keys| == |keys| / p)
            && |ts[p - 1].keys| == |keys| / p + |keys| % p)
  {
    BuildOutcome(Numbered(PodPieces(keys, p)), fails, 0);
    KeysOfNumbered(PodPieces(keys, p));
    PodPiecesSizes(keys, p);
  }

  /** A max-pods schedule that succeeds hands out every key once and in order to numbered tasks, except
      that it drops what lies beyond the truncated count when that count is below the limit.  Below
      2^32 keys there are min(n, p) tasks; with enough keys all tasks but the last get n / p keys and
      the last also gets the remainder. */
  lemma MaxPodsSchedule(keys: seq<string>, p: nat, fails: nat -> bool)
    requires PodsResult(keys, p, fails).Scheduled?
    ensures var ts := PodsResult(keys, p, fails).tasks;
      && Flatten(KeysOf(ts)) == (if PodsKeepAll(|keys|, p) then keys else Counted(keys))
      && (forall i :: 0 <= i < |ts| ==> ts[i].concurrentIdx == i && |ts[i].keys| >= 1)
      && p > 0
      && |ts| == (if Cast(|keys|) < p then Cast(|keys|) else p)
      && (p <= |keys| < WORD ==>
            && (forall i :: 0 <= i < p - 1 ==> |ts[i].keys| == |keys| / p)
            && |ts[p - 1].keys| == |keys| / p + |keys| % p)
  {
    var counted := Counted(keys);
    PiecesOfPods(counted, p, fails);
    var ts := PodsOutcome(counted, p, fails).tasks;
    if |counted| >= p {
      FlattenWithRest(ts, Uncounted(keys));
    }
    if |keys| < WORD {
      ShortLists(keys, p, fails);
    }
  }

  /** With exactly 2^32 keys and a pod limit not a single key is handed out. */
  lemma AllKeysLost(keys: seq<string>, p: nat, fails: nat -> bool)
    requires |keys| == WORD && 0 < p < WORD
    ensures PodsResult(keys, p, fails) == Scheduled([])
  {
    assert Counted(keys) == [] && Singles(Counted(keys)) == [];
  }

  /** Exactly which limits make the max-containers loop panic when every build succeeds.  A limit
      of 2^32 passes validation and is such a limit: it is truncated to zero. */
  lemma MaxContainersPanicsExactly(keys: seq<string>, limit: int, fails: nat -> bool)
    requires forall i :: !fails(i)
    ensures ContainersResult(keys, Cast(limit), fails) == Panic <==>
            (limit % WORD == 0 && |keys| % WORD > 0) || (limit % WORD == 1 && |keys| % WORD == WORD - 1)
    ensures |keys| % WORD > 0 ==> ContainersResult(keys, Cast(0x1_0000_0000), fails) == Panic
  {
    var m, counted := Cast(limit), Counted(keys);
    BuildOutcome([StrategyKey(0, keys)], fails, 0);
    if m > 0 {
      BuildOutcome(Numbered(Chunks(counted, m)), fails, 0);
    }
  }

  /** TaskScheduler.Schedule for a step with a strategy, once the keys are known. */
  function ScheduleOutcome(keys: seq<string>, params: SchedulerParams, fails: nat -> bool): Outcome {
    if params.maxPodNum != 0 then PodsResult(keys, Cast(params.maxPodNum), fails)
    else if params.maxContainersPerPod != 0 then ContainersResult(keys, Cast(params.maxContainersPerPod), fails)
    else Unspecified
  }

  /** Whether a schedule of n keys hands out all of them. */
  predicate KeepsAll(n: nat, params: SchedulerParams) {
    if params.maxPodNum != 0 then PodsKeepAll(n, Cast(params.maxPodNum))
    else ContainersKeepAll(n, Cast(params.maxContainersPerPod))
  }

  /** The keys a successful schedule hands out: all of them, always so below 2^32 keys. */
  function HandedOut(keys: seq<string>, params: SchedulerParams): (handed: seq<string>)
    ensures |keys| < WORD ==> handed == keys
    ensures handed == keys <==> KeepsAll(|keys|, params)
  {
    CastBelow(|keys|);
    if KeepsAll(|keys|, params) then keys else Counted(keys)
  }

  /** Whatever the limits, a schedule that succeeds hands out these keys once and in order, and its
      tasks are numbered by their position. */
  lemma SchedulePartition(keys: seq<string>, params: SchedulerParams, fails: nat -> bool)
    requires ScheduleOutcome(keys, params, fails).Scheduled?
    ensures var ts := ScheduleOutcome(keys, params, fails).tasks;
      && Flatten(KeysOf(ts)) == HandedOut(keys, params)
      && forall i :: 0 <= i < |ts| ==> ts[i].concurrentIdx == i
  {
    if params.maxPodNum != 0 {
      MaxPodsSchedule(keys, Cast(params.maxPodNum), fails);
    } else {
      MaxContainersSchedule(keys, Cast(params.maxContainersPerPod), fails);
    }
  }

  /** A schedule is refused exactly when no limit is given. */
  lemma UnspecifiedExactly(keys: seq<string>, params: SchedulerParams, fails: nat -> bool)
    ensures ScheduleOutcome(keys, params, fails) == Unspecified <==> params.maxPodNum == 0 && params.maxContainersPerPod == 0
  {
    var counted, p, m := Counted(keys), Cast(params.maxPodNum), Cast(params.maxContainersPerPod);
    if p > 0 {
      BuildOutcome(Numbered(PodPieces(counted, p)), fails, 0);
    }
    BuildOutcome([StrategyKey(0, keys)], fails, 0);
    BuildOutcome([StrategyKey(0, counted)], fails, 0);
    if m > 0 {
      BuildOutcome(Numbered(Chunks(counted, m)), fails, 0);
    }
  }

  lemma ContainersHaveTask(keys: seq<string>, m: nat, fails: nat -> bool)
    requires ContainersResult(keys, m, fails).Scheduled?
    ensures ContainersResult(keys, m, fails).tasks != []
  {
    if |keys| < WORD {
      MaxContainersSchedule(keys, m, fails);
      if keys != [] {
        CeilDivPositive(|keys|, m);
      }
    } else if Cast(|keys|) <= m {
      BuildOutcome([StrategyKey(0, keys)], fails, 0);
    } else {
      PiecesOfContainers(Counted(keys), m, fails);
      CeilDivPositive(Cast(|keys|), m);
    }
  }

  lemma CeilDivPositive(n: nat, m: nat)
    requires n > 0 && m > 0
    ensures CeilDiv(n, m) > 0
  {
    if n > m {
      CeilDivStep(n, m);
    } else {
      CeilDivOne(n, m);
    }
  }

  /** A schedule has no task at all exactly when there is a pod limit and the truncated count is 0: no
      key, or a multiple of 2^32 of them. */
  lemma NoTasksExactly(keys: seq<string>, params: SchedulerParams, fails: nat -> bool)
    requires ScheduleOutcome(keys, params, fails).Scheduled?
    ensures ScheduleOutcome(keys, params, fails).tasks == [] <==> params.maxPodNum != 0 && |keys| % WORD == 0
  {
    if params.maxPodNum != 0 {
      MaxPodsSchedule(keys, Cast(params.maxPodNum), fails);
    } else {
      ContainersHaveTask(keys, Cast(params.maxContainersPerPod), fails);
    }
  }

  /*** Groups of concurrent subtasks within a task. ***/

  function ConcurrentNum(maxConcurrentNumPerPod: int, taskNum: nat): nat {
    if maxConcurrentNumPerPod <= 0 then taskNum
    else if maxConcurrentNumPerPod > taskNum then taskNum
    else maxConcurrentNumPerPod
  }

  /** The groups that run one after another: consecutive pieces of the effective concurrency. */
  function Groups<T>(tasks: seq<T>, maxConcurrentNumPerPod: int): (gs: seq<seq<T>>)
    ensures |gs| > 0
  {
    var c := ConcurrentNum(maxConcurrentNumPerPod, |tasks|);
    if c > 0 then Chunks(tasks, c) else [tasks]
  }

  /** With a limit that counts, every group but the last has exactly as many members as the limit and
      the last has some; otherwise everything is one group. */
  predicate GroupedBy<T(==)>(gs: seq<seq<T>>, tasks: seq<T>, limit: int) {
    if 0 < limit < |tasks| then
      && |gs| == CeilDiv(|tasks|, limit) && 1 <= |gs[|gs| - 1]| <= limit
      && forall i :: 0 <= i < |gs| - 1 ==> |gs[i]| == limit
    else gs == [tasks]
  }

  lemma GroupsFull<T>(tasks: seq<T>, limit: int)
    ensures GroupedBy(Groups(tasks, limit), tasks, limit)
  {
    if 0 < limit < |tasks| {
      ChunksSizes(tasks, limit);
    }
  }

  /** No way to run all subtasks in groups within the limit has fewer groups. */
  lemma FewestGroups<T>(tasks: seq<T>, limit: int, gs: seq<seq<T>>)
    requires Flatten(gs) == tasks && gs != [] && (limit > 0 ==> forall i :: 0 <= i < |gs| ==> |gs[i]| <= limit)
    ensures |Groups(tasks, limit)| <= |gs|
  {
    GroupsFull(tasks, limit);
    if 0 < limit < |tasks| {
      FlattenWithin(gs, limit);
      CeilDivLeast(|tasks|, limit, |gs|);
    }
  }

  lemma {:induction false} FlattenWithin<T>(gs: seq<seq<T>>, limit: nat)
    requires forall i :: 0 <= i < |gs| ==> |gs[i]| <= limit
    ensures |Flatten(gs)| <= |gs| * limit
  {
    if gs != [] {
      FlattenWithin(gs[1..], limit);
      assert |gs| * limit == limit + (|gs| - 1) * limit;
    }
  }

  /** The quotient rounded up is the least number of pieces of size m that hold n. */
  lemma CeilDivLeast(n: nat, m: nat, k: nat)
    requires m > 0
    ensures n <= CeilDiv(n, m) * m
    ensures n <= k * m ==> CeilDiv(n, m) <= k
  {
    DivMul(n + m - 1, m);
    if k < CeilDiv(n, m) {
      FewerPieces(CeilDiv(n, m), k, m);
    }
  }

  lemma FewerPieces(q: nat, k: nat, m: nat)
    requires k < q
    ensures k * m + m <= q * m
  {
    var d := q - k - 1;
    assert q * m == k * m + m + d * m;
    assert d * m >= 0;
  }

  /** The groups keep every subtask once and in order, no group exceeds the per-pod limit nor the
      number of subtasks, and there are ceil(k / c) of them; no subtask means one empty group. */
  lemma GroupsPartition<T>(tasks: seq<T>, limit: int)
    ensures Flatten(Groups(tasks, limit)) == tasks
    ensures tasks == [] ==> Groups(tasks, limit) == [[]]
    ensures tasks != [] ==> ConcurrentNum(limit, |tasks|) > 0
    ensures tasks != [] ==> |Groups(tasks, limit)| == CeilDiv(|tasks|, ConcurrentNum(limit, |tasks|))
    ensures ConcurrentNum(limit, |tasks|) <= |tasks| && (limit > 0 ==> ConcurrentNum(limit, |tasks|) <= limit)
    ensures forall i :: 0 <= i < |Groups(tasks, limit)| ==> |Groups(tasks, limit)[i]| <= ConcurrentNum(limit, |tasks|)
    ensures GroupedBy(Groups(tasks, limit), tasks, limit)
  {
    GroupsFull(tasks, limit);
    var c := ConcurrentNum(limit, |tasks|);
    if c > 0 {
      ChunksPartition(tasks, c);
      ChunksSizes(tasks, c);
      var cs := Chunks(tasks, c);
      forall i | 0 <= i < |cs| ensures |cs[i]| <= c {
        if i < |cs| - 1 {
          assert |cs[i]| == c;
        }
      }
    } else {
      FlattenSnoc([], tasks);
    }
  }

  /** Flattening the two levels, tasks and then groups, gives the keys back. */
  lemma {:induction false} TwoLevelFlatten(pieces: seq<seq<string>>, limit: int)
    ensures Flatten(seq(|pieces|, i requires 0 <= i < |pieces| => Flatten(Groups(pieces[i], limit)))) == Flatten(pieces)
  {
    forall i | 0 <= i < |pieces| ensures Flatten(Groups(pieces[i], limit)) == pieces[i] {
      GroupsPartition(pieces[i], limit);
    }
    assert seq(|pieces|, i requires 0 <= i < |pieces| => Flatten(Groups(pieces[i], limit))) == pieces;
  }
}
