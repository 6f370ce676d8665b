/** The loops of api/v1/scheduler.go in uint32 arithmetic, proved against the outcomes of module
    Scheduler. */
module SchedulerLoops {
  import opened Seqs
  import opened Scheduler

  lemma ChunksSplit<T>(s: seq<T>, m: nat)
    requires m > 0 && |s| > m
    ensures Chunks(s, m) == [s[..m]] + Chunks(s[m..], m)
  {
  }

  lemma NumberedSnoc(cs: seq<seq<string>>, c: seq<string>)
    ensures Numbered(cs + [c]) == Numbered(cs) + [StrategyKey(|cs|, c)]
  {
  }

  /** A failing build found at position i, with no failure before it, is the outcome. */
  lemma {:induction false} BuildFailsAt(ts: seq<StrategyKey>, fails: nat -> bool, from: nat, i: nat)
    requires from <= i < |ts| && fails(i)
    requires forall j :: from <= j < i ==> !fails(j)
    ensures Build(ts, fails, from) == BuildFailed(i)
    decreases i - from
  {
    if from < i {
      BuildFailsAt(ts, fails, from + 1, i);
    }
  }

  /** c is the quotient of n by m: m can be taken from n exactly c times. */
  predicate Quotient(c: nat, n: int, m: nat)
    decreases c
  {
    if c == 0 then 0 <= n < m else n >= m && Quotient(c - 1, n - m, m)
  }

  lemma {:induction false} QuotientDivides(c: nat, n: nat, m: nat)
    requires m > 0 && c == n / m
    ensures Quotient(c, n, m)
    decreases c
  {
    DivMul(n, m);
    if c > 0 {
      assert c * m == (c - 1) * m + m && (c - 1) * m >= 0;
      DivUnique(n - m, m, c - 1);
      QuotientDivides(c - 1, n - m, m);
    }
  }

  lemma {:induction false} QuotientSmall(c: nat, n: nat, m: nat)
    requires Quotient(c, n, m)
    ensures m > 0 && c <= n && (m > 1 ==> 2 * c <= n) && (m == 1 ==> c == n)
    decreases c
  {
    if c > 0 {
      QuotientSmall(c - 1, n - m, m);
    }
  }

  /** Upper slice bound of one round, as the source computes it in uint32. */
  function High(i: nat, sum: nat, c: nat, n: nat, m: nat): nat
    requires sum < WORD && m < WORD
  {
    if i == c then n else Add32(sum, m)
  }

  /** The loop counter after r increments, at most one of which wraps. */
  function Counter(r: nat): nat {
    if r < WORD then r else r - WORD
  }

  /** The pieces are those already cut followed by the pieces of the rest. */
  ghost predicate CutSoFar(keys: seq<string>, m: nat, sum: nat, cut: seq<seq<string>>)
    requires m > 0
  {
    && sum <= |keys|
    && Chunks(keys, m) == if sum == |keys| then cut else cut + Chunks(keys[sum..], m)
  }

  lemma CutMore(keys: seq<string>, m: nat, sum: nat, cut: seq<seq<string>>, high: nat)
    requires m > 0 && CutSoFar(keys, m, sum, cut) && sum < |keys|
    requires high == if sum + m < |keys| then sum + m else |keys|
    ensures CutSoFar(keys, m, high, cut + [keys[sum..high]])
    ensures |Chunks(keys, m)| > |cut| && Chunks(keys, m)[|cut|] == keys[sum..high]
  {
    var rest := keys[sum..];
    assert keys[sum..high] == rest[..high - sum];
    if sum + m < |keys| {
      ChunksSplit(rest, m);
      assert rest[m..] == keys[high..];
    } else {
      assert rest[..high - sum] == rest;
    }
  }

  /** State of the max-containers loop before round r, for the quotient c. */
  ghost predicate LoopState(keys: seq<string>, m: nat, c: nat, fails: nat -> bool,
                            r: nat, sum: nat, cut: seq<seq<string>>, tasks: seq<StrategyKey>) {
    && 0 < m < WORD && |keys| < WORD && Quotient(c, |keys|, m) && r <= c + 1
    && CutSoFar(keys, m, sum, cut)
    && (if r <= c then Quotient(c - r, |keys| - sum, m) else sum == |keys|)
    && tasks == Numbered(cut)
    && (r <= c ==> |cut| == r)
    && (forall j :: 0 <= j < |tasks| ==> !fails(j))
  }

  lemma Round(keys: seq<string>, m: nat, c: nat, fails: nat -> bool,
              r: nat, sum: nat, cut: seq<seq<string>>, tasks: seq<StrategyKey>, high: nat)
    requires LoopState(keys, m, c, fails, r, sum, cut, tasks) && r <= c
    requires high == High(r, sum, c, |keys|, m)
    ensures sum <= high <= |keys| && r < WORD
    ensures high == sum ==> LoopState(keys, m, c, fails, r + 1, sum, cut, tasks)
    ensures high > sum && fails(r) ==> ContainersOutcome(keys, m, fails) == BuildFailed(r)
    ensures high > sum && !fails(r) ==>
              LoopState(keys, m, c, fails, r + 1, high, cut + [keys[sum..high]], tasks + [StrategyKey(r, keys[sum..high])])
  {
    QuotientSmall(c, |keys|, m);
    if high > sum {
      CutMore(keys, m, sum, cut, high);
      if fails(r) {
        BuildFailsAt(Numbered(Chunks(keys, m)), fails, 0, r);
      } else {
        NumberedSnoc(cut, keys[sum..high]);
      }
    }
  }

  /** When the counter has wrapped, the next slice is the panic the specification names. */
  lemma RoundAfterWrap(keys: seq<string>, m: nat, c: nat, fails: nat -> bool,
                       sum: nat, cut: seq<seq<string>>, tasks: seq<StrategyKey>)
    requires LoopState(keys, m, c, fails, c + 1, sum, cut, tasks) && Counter(c + 1) <= c
    ensures High(Counter(c + 1), sum, c, |keys|, m) < sum
    ensures ContainersOutcome(keys, m, fails) == Panic
  {
    QuotientSmall(c, |keys|, m);
    BuildOutcome(tasks, fails, 0);
  }

  lemma LoopDone(keys: seq<string>, m: nat, c: nat, fails: nat -> bool,
                 sum: nat, cut: seq<seq<string>>, tasks: seq<StrategyKey>)
    requires LoopState(keys, m, c, fails, c + 1, sum, cut, tasks) && Counter(c + 1) > c
    ensures sum == |keys| && ContainersOutcome(keys, m, fails) == Scheduled(tasks)
  {
    BuildOutcome(tasks, fails, 0);
    QuotientSmall(c, |keys|, m);
  }

  /** What the slice of a round holds and how it is counted, when its upper bound may be the end of the
      whole list. */
  lemma SliceCounted(keys: seq<string>, sum: nat, high: nat, toEnd: bool)
    requires sum <= high <= Cast(|keys|) && (toEnd ==> high == Cast(|keys|))
    ensures Cast(|keys|) <= |keys|
    ensures var upper := if toEnd then |keys| else high;
      && sum <= upper <= |keys|
      && Cast(|keys[sum..upper]|) == high - sum
      && keys[sum..upper] == Counted(keys)[sum..high] + (if toEnd then Uncounted(keys) else [])
  {
    CastBelow(|keys|);
    CastLess(|keys|, sum);
    CastBelow(high - sum);
    var counted, rest := Counted(keys), Uncounted(keys);
    assert counted + rest == keys;
    if toEnd {
      assert keys[sum..] == counted[sum..] + rest;
      assert counted[sum..high] == counted[sum..] && keys[sum..|keys|] == keys[sum..];
    } else {
      assert keys[sum..high] == counted[sum..high];
    }
  }

  lemma CastLess(n: nat, k: nat)
    requires k <= Cast(n)
    ensures Cast(n) <= n && Cast(n - k) == Cast(n) - k
  {
    DivMul(n, WORD);
    var q := n / WORD;
    assert q * WORD <= n - k < q * WORD + WORD;
    DivUnique(n - k, WORD, q);
    DivMul(n - k, WORD);
  }

  method MaxContainersBasedSchedule(keys: seq<string>, maxContainersPerPod: int, fails: nat -> bool)
    returns (out: Outcome)
    ensures out == ContainersResult(keys, Cast(maxContainersPerPod), fails)
  {
    var maxContainers := Cast(maxContainersPerPod);
    var keyNum := Cast(|keys|);
    if keyNum <= maxContainers {
      if fails(0) {
        return BuildFailed(0);
      }
      BuildOutcome([StrategyKey(0, keys)], fails, 0);
      return Scheduled([StrategyKey(0, keys)]);
    }
    if maxContainers == 0 {
      return Panic;
    }
    var concurrent := keyNum / maxContainers;
    QuotientDivides(concurrent, keyNum, maxContainers);
    out := MaxContainersLoop(keys, maxContainers, concurrent, fails);
  }

  /** The tasks made so far: those of the counted keys, the last with the uncounted ones once the last
      round has added it. */
  function MadeSoFar(keys: seq<string>, m: nat, c: nat, r: nat, tasks: seq<StrategyKey>): seq<StrategyKey>
    requires m > 0
  {
    if r > c && Cast(|keys|) % m != 0 then WithRest(tasks, Uncounted(keys)) else tasks
  }

  lemma {:induction false} QuotientRemainder(c: nat, n: nat, m: nat)
    requires Quotient(c, n, m) && m > 0
    ensures n - c * m >= 0 && n % m == n - c * m < m
    decreases c
  {
    if c > 0 {
      QuotientRemainder(c - 1, n - m, m);
      assert (c - 1) * m + m == c * m;
      RemainderStep(n, m);
    } else {
      SmallRemainder(n, m);
    }
  }

  lemma RemainderStep(n: nat, m: nat)
    requires n >= m > 0
    ensures n % m == (n - m) % m
  {
    var q := (n - m) / m;
    DivMul(n - m, m);
    assert (q + 1) * m == q * m + m;
    DivUnique(n, m, q + 1);
    DivMul(n, m);
  }

  lemma SmallRemainder(n: nat, m: nat)
    requires n < m
    ensures n % m == n
  {
  }

  /** One round over the whole list against the same round over the counted keys. */
  lemma LongRound(keys: seq<string>, m: nat, c: nat, fails: nat -> bool,
                  r: nat, sum: nat, cut: seq<seq<string>>, made: seq<StrategyKey>, upper: nat)
    requires LoopState(Counted(keys), m, c, fails, r, sum, cut, made) && r <= c && sum == r * m
    requires |Counted(keys)| > m && upper == High(r, sum, c, Cast(|keys|), m)
    ensures sum <= upper <= Cast(|keys|) && r < WORD
    ensures var high := if r == c then |keys| else upper; var counted := Counted(keys);
      && sum <= high <= |keys| && Cast(|keys[sum..high]|) == upper - sum
      && (upper == sum ==>
            && LoopState(counted, m, c, fails, r + 1, sum, cut, made)
            && MadeSoFar(keys, m, c, r + 1, made) == MadeSoFar(keys, m, c, r, made))
      && (upper > sum && fails(r) ==> ContainersResult(keys, m, fails) == BuildFailed(r))
      && (upper > sum && !fails(r) ==>
            var made' := made + [StrategyKey(r, counted[sum..upper])];
            && LoopState(counted, m, c, fails, r + 1, upper, cut + [counted[sum..upper]], made')
            && MadeSoFar(keys, m, c, r + 1, made') == MadeSoFar(keys, m, c, r, made) + [StrategyKey(r, keys[sum..high])])
    ensures r < c ==> upper == (r + 1) * m
  {
    var counted := Counted(keys);
    Round(counted, m, c, fails, r, sum, cut, made, upper);
    SliceCounted(keys, sum, upper, r == c);
    if r < c {
      QuotientSmall(c, |counted|, m);
      assert (r + 1) * m == r * m + m;
      assert counted[sum..upper] + [] == counted[sum..upper];
    } else {
      QuotientRemainder(c, |counted|, m);
    }
  }

  method MaxContainersLoop(keys: seq<string>, maxContainers: nat, concurrent: nat, fails: nat -> bool)
    returns (out: Outcome)
    requires 0 < maxContainers < Cast(|keys|) && Quotient(concurrent, Cast(|keys|), maxContainers)
    ensures out == ContainersResult(keys, maxContainers, fails)
  {
    var keyNum: nat := Cast(|keys|);
    ghost var counted := Counted(keys);
    ghost var cut: seq<seq<string>> := [];
    ghost var made: seq<StrategyKey> := [];
    ghost var rounds: nat := 0;
    var tasks: seq<StrategyKey> := [];
    var sum: nat := 0;
    var i: nat := 0;
    assert counted[sum..] == counted;
    QuotientSmall(concurrent, keyNum, maxContainers);
    while i <= concurrent
      invariant i == Counter(rounds) && LoopState(counted, maxContainers, concurrent, fails, rounds, sum, cut, made)
      invariant rounds <= concurrent ==> sum == rounds * maxContainers
      invariant tasks == MadeSoFar(keys, maxContainers, concurrent, rounds, made)
      decreases concurrent + 1 - rounds
    {
      var high := if i == concurrent then |keys| else Add32(sum, maxContainers);
      ghost var upper := High(i, sum, concurrent, keyNum, maxContainers);
      if rounds <= concurrent {
        LongRound(keys, maxContainers, concurrent, fails, rounds, sum, cut, made, upper);
      } else {
        RoundAfterWrap(counted, maxContainers, concurrent, fails, sum, cut, made);
      }
      if !(sum <= high <= |keys|) {
        return Panic;
      }
      var taskKeys := keys[sum..high];
      var taskNum := Cast(|taskKeys|);
      rounds := rounds + 1;
      if taskNum == 0 {
        i := Add32(i, 1);
        continue;
      }
      if fails(i) {
        return BuildFailed(i);
      }
      made := made + [StrategyKey(i, counted[sum..upper])];
      tasks := tasks + [StrategyKey(i, taskKeys)];
      cut := cut + [counted[sum..upper]];
      sum := Add32(sum, taskNum);
      i := Add32(i, 1);
    }
    assert rounds == concurrent + 1;
    LoopDone(counted, maxContainers, concurrent, fails, sum, cut, made);
    if keyNum != sum {
      return Mismatch(keyNum, sum);
    }
    return Scheduled(tasks);
  }

  /** The pieces are those already cut followed by the p - i pieces of the rest. */
  ghost predicate PodsSoFar(keys: seq<string>, q: nat, p: nat, i: nat, sum: nat, cut: seq<seq<string>>) {
    && 0 < q && 0 < p && Fits(|keys|, q, p) && i <= p && |cut| == i && sum <= |keys|
    && (i < p ==> Fits(|keys| - sum, q, p - i) && PodChunks(keys, q, p) == cut + PodChunks(keys[sum..], q, p - i))
    && (i == p ==> sum == |keys| && PodChunks(keys, q, p) == cut)
  }

  lemma PodsMore(keys: seq<string>, q: nat, p: nat, i: nat, sum: nat, cut: seq<seq<string>>, high: nat)
    requires PodsSoFar(keys, q, p, i, sum, cut) && i < p && |keys| < WORD && q < WORD
    requires high == if i == p - 1 then |keys| else Add32(sum, q)
    ensures sum < high <= |keys|
    ensures PodsSoFar(keys, q, p, i + 1, high, cut + [keys[sum..high]])
    ensures PodChunks(keys, q, p)[i] == keys[sum..high]
  {
    var rest := keys[sum..];
    if i == p - 1 {
      assert Fits(|rest| - q, q, 0);
      assert rest == keys[sum..high];
    } else {
      assert Fits(|rest| - q, q, p - i - 1);
      assert high == sum + q;
      assert rest[..q] == keys[sum..high] && rest[q..] == keys[high..];
      assert PodChunks(rest, q, p - i) == [rest[..q]] + PodChunks(rest[q..], q, p - i - 1);
    }
  }

  /** State of the max-pods loop before round i. */
  ghost predicate PodLoopState(keys: seq<string>, q: nat, p: nat, fails: nat -> bool,
                               i: nat, sum: nat, cut: seq<seq<string>>, tasks: seq<StrategyKey>) {
    && |keys| < WORD && q < WORD && PodsSoFar(keys, q, p, i, sum, cut) && tasks == Numbered(cut)
    && forall j :: 0 <= j < i ==> !fails(j)
  }

  lemma PodRound(keys: seq<string>, q: nat, p: nat, fails: nat -> bool,
                 i: nat, sum: nat, cut: seq<seq<string>>, tasks: seq<StrategyKey>, high: nat)
    requires PodLoopState(keys, q, p, fails, i, sum, cut, tasks) && i < p
    requires high == if i == p - 1 then |keys| else Add32(sum, q)
    ensures sum < high <= |keys|
    ensures fails(i) ==> Build(Numbered(PodChunks(keys, q, p)), fails, 0) == BuildFailed(i)
    ensures !fails(i) ==>
              PodLoopState(keys, q, p, fails, i + 1, high, cut + [keys[sum..high]], tasks + [StrategyKey(i, keys[sum..high])])
  {
    PodsMore(keys, q, p, i, sum, cut, high);
    if fails(i) {
      BuildFailsAt(Numbered(PodChunks(keys, q, p)), fails, 0, i);
    } else {
      NumberedSnoc(cut, keys[sum..high]);
    }
  }

  lemma PodDone(keys: seq<string>, q: nat, p: nat, fails: nat -> bool,
                sum: nat, cut: seq<seq<string>>, tasks: seq<StrategyKey>)
    requires PodLoopState(keys, q, p, fails, p, sum, cut, tasks)
    ensures sum == |keys| && Build(Numbered(PodChunks(keys, q, p)), fails, 0) == Scheduled(tasks)
  {
    BuildOutcome(tasks, fails, 0);
  }

  /** The branch for fewer keys than pods. */
  method OnePodPerKey(keys: seq<string>, keyNum: nat, fails: nat -> bool) returns (out: Outcome)
    requires keyNum <= |keys| && keyNum < WORD
    ensures out == Build(Numbered(Singles(keys[..keyNum])), fails, 0)
  {
    ghost var all := Numbered(Singles(keys[..keyNum]));
    var tasks: seq<StrategyKey> := [];
    var i: nat := 0;
    while i < keyNum
      invariant i <= keyNum && tasks == all[..i]
      invariant forall j :: 0 <= j < i ==> !fails(j)
    {
      if fails(i) {
        BuildFailsAt(all, fails, 0, i);
        return BuildFailed(i);
      }
      tasks := tasks + [StrategyKey(i, [keys[i]])];
      i := Add32(i, 1);
    }
    assert tasks == all;
    BuildOutcome(tasks, fails, 0);
    return Scheduled(tasks);
  }

  method MaxPodNumBasedSchedule(keys: seq<string>, maxPodNum: int, fails: nat -> bool)
    returns (out: Outcome)
    ensures out == PodsResult(keys, Cast(maxPodNum), fails)
  {
    var maxPods := Cast(maxPodNum);
    var keyNum := Cast(|keys|);
    CastBelow(|keys|);
    if keyNum < maxPods {
      out := OnePodPerKey(keys, keyNum, fails);
      return;
    }
    if maxPods == 0 {
      return Panic;
    }
    var perPodKeyNum := keyNum / maxPods;
    EnoughKeys(keyNum, maxPods);
    out := MaxPodsLoop(keys, maxPods, perPodKeyNum, fails);
  }

  /** One round of the max-pods loop over the whole list against the same round over the counted keys. */
  lemma LongPodRound(keys: seq<string>, q: nat, p: nat, fails: nat -> bool,
                     i: nat, sum: nat, cut: seq<seq<string>>, made: seq<StrategyKey>, upper: nat)
    requires PodLoopState(Counted(keys), q, p, fails, i, sum, cut, made) && i < p
    requires upper == if i == p - 1 then Cast(|keys|) else Add32(sum, q)
    ensures sum < upper <= Cast(|keys|)
    ensures var high := if i == p - 1 then |keys| else upper; var counted := Counted(keys);
      && sum <= high <= |keys| && Cast(|keys[sum..high]|) == upper - sum
      && (fails(i) ==> Build(Numbered(PodChunks(counted, q, p)), fails, 0) == BuildFailed(i))
      && (!fails(i) ==>
            var made' := made + [StrategyKey(i, counted[sum..upper])];
            && PodLoopState(counted, q, p, fails, i + 1, upper, cut + [counted[sum..upper]], made')
            && made + [StrategyKey(i, keys[sum..high])] == if i == p - 1 then WithRest(made', Uncounted(keys)) else made')
  {
    var counted := Counted(keys);
    PodRound(counted, q, p, fails, i, sum, cut, made, upper);
    SliceCounted(keys, sum, upper, i == p - 1);
    assert counted[sum..upper] + [] == counted[sum..upper];
  }

  method MaxPodsLoop(keys: seq<string>, maxPods: nat, perPodKeyNum: nat, fails: nat -> bool)
    returns (out: Outcome)
    requires 0 < maxPods <= Cast(|keys|) && 0 < perPodKeyNum < WORD && Fits(Cast(|keys|), perPodKeyNum, maxPods)
    ensures out == Extended(Build(Numbered(PodChunks(Counted(keys), perPodKeyNum, maxPods)), fails, 0), Uncounted(keys))
  {
    var keyNum: nat := Cast(|keys|);
    ghost var counted := Counted(keys);
    var tasks: seq<StrategyKey> := [];
    ghost var made: seq<StrategyKey> := [];
    ghost var cut: seq<seq<string>> := [];
    assert counted[0..] == counted;
    var sum: nat := 0;
    var i: nat := 0;
    while i < maxPods
      invariant i <= maxPods && PodLoopState(counted, perPodKeyNum, maxPods, fails, i, sum, cut, made)
      invariant tasks == if i == maxPods then WithRest(made, Uncounted(keys)) else made
    {
      var high := if i == maxPods - 1 then |keys| else Add32(sum, perPodKeyNum);
      ghost var upper := if i == maxPods - 1 then keyNum else high;
      LongPodRound(keys, perPodKeyNum, maxPods, fails, i, sum, cut, made, upper);
      if !(sum <= high <= |keys|) {
        return Panic;
      }
      var taskKeys := keys[sum..high];
      var taskNum := Cast(|taskKeys|);
      if taskNum == 0 {
        break;
      }
      if fails(i) {
        return BuildFailed(i);
      }
      made := made + [StrategyKey(i, counted[sum..upper])];
      cut := cut + [counted[sum..upper]];
      tasks := tasks + [StrategyKey(i, taskKeys)];
      sum := Add32(sum, taskNum);
      i := Add32(i, 1);
    }
    PodDone(counted, perPodKeyNum, maxPods, fails, sum, cut, made);
    if keyNum != sum {
      return Mismatch(keyNum, sum);
    }
    return Scheduled(tasks);
  }

  method Schedule(keys: seq<string>, params: SchedulerParams, fails: nat -> bool) returns (out: Outcome)
    ensures out == ScheduleOutcome(keys, params, fails)
  {
    if params.maxPodNum != 0 {
      out := MaxPodNumBasedSchedule(keys, params.maxPodNum, fails);
    } else if params.maxContainersPerPod != 0 {
      out := MaxContainersBasedSchedule(keys, params.maxContainersPerPod, fails);
    } else {
      out := Unspecified;
    }
  }

  method ScheduleSubTasks<T>(tasks: seq<T>, maxConcurrentNumPerPod: int) returns (groups: seq<seq<T>>)
    ensures groups == Groups(tasks, maxConcurrentNumPerPod)
    ensures Flatten(groups) == tasks && GroupedBy(groups, tasks, maxConcurrentNumPerPod)
  {
    var concurrent := ConcurrentNum(maxConcurrentNumPerPod, |tasks|);
    groups := [];
    if concurrent > 0 {
      var i := 0;
      assert tasks[0..] == tasks;
      while i < |tasks|
        invariant 0 <= i
        invariant i < |tasks| ==> Chunks(tasks, concurrent) == groups + Chunks(tasks[i..], concurrent)
        invariant i >= |tasks| ==> Chunks(tasks, concurrent) == groups
      {
        var end := i + concurrent;
        if end > |tasks| {
          end := |tasks|;
        }
        if |tasks[i..]| > concurrent {
          ChunksSplit(tasks[i..], concurrent);
          assert tasks[i..][..concurrent] == tasks[i..end] && tasks[i..][concurrent..] == tasks[end..];
        } else {
          assert tasks[i..end] == tasks[i..];
        }
        groups := groups + [tasks[i..end]];
        i := i + concurrent;
      }
    } else {
      groups := [tasks];
    }
    GroupsPartition(tasks, maxConcurrentNumPerPod);
  }
}
