/** The order in which resources are copied: repositories, tokens, artifacts, each kind by name
    (sort.Strings in api/v1/task_builder.go). */
module ResourceOrder {
  import opened PodSpecs

  /** The order of Go strings. */
  predicate Less(a: string, b: string) {
    if b == "" then false
    else if a == "" then true
    else if a[0] != b[0] then a[0] < b[0]
    else Less(a[1..], b[1..])
  }

  /** The strings agree before position k, where a ends or has the smaller character. */
  predicate FirstDifference(a: string, b: string, k: nat) {
    && k <= |a| && k < |b| && a[..k] == b[..k]
    && (k < |a| ==> a[k] < b[k])
  }

  lemma {:induction false} LessDiffers(a: string, b: string) returns (k: nat)
    requires Less(a, b)
    ensures FirstDifference(a, b, k)
  {
    k := 0;
    if a != "" && a[0] == b[0] {
      var rest := LessDiffers(a[1..], b[1..]);
      k := rest + 1;
      assert a[..k] == [a[0]] + a[1..][..rest] && b[..k] == [b[0]] + b[1..][..rest];
    }
  }

  lemma {:induction false} DiffersLess(a: string, b: string, k: nat)
    requires FirstDifference(a, b, k)
    ensures Less(a, b)
    decreases k
  {
    if k > 0 {
      assert a[0] == a[..k][0] && b[0] == b[..k][0];
      assert a[1..][..k - 1] == a[..k][1..] && b[1..][..k - 1] == b[..k][1..];
      DiffersLess(a[1..], b[1..], k - 1);
    }
  }

  /** The order is that of the first characters that differ. */
  lemma LessExactly(a: string, b: string)
    ensures Less(a, b) <==> exists k: nat :: FirstDifference(a, b, k)
  {
    if Less(a, b) {
      var k := LessDiffers(a, b);
    }
    if k: nat :| FirstDifference(a, b, k) {
      DiffersLess(a, b, k);
    }
  }

  lemma {:induction false} LessTotal(a: string, b: string)
    ensures Less(a, b) || a == b || Less(b, a)
  {
    if a != "" && b != "" && a[0] == b[0] {
      LessTotal(a[1..], b[1..]);
      assert a == [a[0]] + a[1..] && b == [b[0]] + b[1..];
    }
  }

  lemma {:induction false} LessTransitive(a: string, b: string, c: string)
    requires Less(a, b) && Less(b, c)
    ensures Less(a, c)
  {
    if a != "" && a[0] == b[0] && b[0] == c[0] {
      LessTransitive(a[1..], b[1..], c[1..]);
    }
  }

  lemma {:induction false} LessIrreflexive(a: string)
    ensures !Less(a, a)
  {
    if a != "" {
      LessIrreflexive(a[1..]);
    }
  }

  function KindRank(r: Resource): nat {
    match r
    case Repo(_) => 0
    case Token(_) => 1
    case Artifact(_) => 2
  }

  predicate Before(r: Resource, r': Resource) {
    KindRank(r) < KindRank(r') || (KindRank(r) == KindRank(r') && Less(r.name, r'.name))
  }

  lemma BeforeTotal(r: Resource, r': Resource)
    ensures Before(r, r') || r == r' || Before(r', r)
  {
    LessTotal(r.name, r'.name);
  }

  lemma BeforeTransitive(r: Resource, r': Resource, r'': Resource)
    requires Before(r, r') && Before(r', r'')
    ensures Before(r, r'')
  {
    if KindRank(r) == KindRank(r') == KindRank(r'') {
      LessTransitive(r.name, r'.name, r''.name);
    }
  }

  predicate InOrder(order: seq<Resource>) {
    forall i, j :: 0 <= i < j < |order| ==> Before(order[i], order[j])
  }

  /** Repositories come before tokens and tokens before artifacts, and names of one kind are sorted. */
  lemma KindsInOrder(order: seq<Resource>, i: nat, j: nat)
    requires InOrder(order) && i < j < |order|
    ensures order[j].Repo? ==> order[i].Repo?
    ensures order[j].Token? ==> !order[i].Artifact?
    ensures (order[i].Repo? <==> order[j].Repo?) && (order[i].Token? <==> order[j].Token?) ==> Less(order[i].name, order[j].name)
  {
    assert Before(order[i], order[j]);
  }

  lemma BeforeStrict(r: Resource, r': Resource)
    requires Before(r, r')
    ensures r != r' && !Before(r', r)
  {
    LessIrreflexive(r.name);
    if Before(r', r) {
      BeforeTransitive(r, r', r);
    }
  }

  /** An ordered list is determined by its elements. */
  lemma {:induction false} OrderUnique(a: seq<Resource>, b: seq<Resource>)
    requires InOrder(a) && InOrder(b) && forall r :: r in a <==> r in b
    ensures a == b
  {
    FirstIn(a);
    FirstIn(b);
    if a != [] {
      HeadLeast(a, b[0]);
      HeadLeast(b, a[0]);
      if Before(a[0], b[0]) {
        BeforeStrict(a[0], b[0]);
      }
      TailElements(a, b);
      OrderUnique(a[1..], b[1..]);
    }
  }

  lemma FirstIn(a: seq<Resource>)
    ensures a != [] ==> a[0] in a
  {
  }

  lemma HeadLeast(a: seq<Resource>, r: Resource)
    requires InOrder(a) && r in a
    ensures r == a[0] || Before(a[0], r)
  {
  }

  lemma TailElements(a: seq<Resource>, b: seq<Resource>)
    requires a != [] && b != [] && a[0] == b[0] && InOrder(a) && InOrder(b) && forall r :: r in a <==> r in b
    ensures InOrder(a[1..]) && InOrder(b[1..])
    ensures forall r :: r in a[1..] <==> r in b[1..]
  {
    HeadNotInTail(a);
    HeadNotInTail(b);
    forall r ensures r in a[1..] <==> r in b[1..] {
      assert r in a <==> r == a[0] || r in a[1..];
      assert r in b <==> r == b[0] || r in b[1..];
    }
  }

  lemma HeadNotInTail(a: seq<Resource>)
    requires a != [] && InOrder(a)
    ensures a[0] !in a[1..]
  {
    forall i | 0 < i < |a| ensures a[0] != a[i] {
      BeforeStrict(a[0], a[i]);
    }
  }

  method Least(names: set<Resource>) returns (n: Resource)
    requires names != {}
    ensures n in names && forall m :: m in names && m != n ==> Before(n, m)
  {
    n :| n in names;
    var todo := names - {n};
    while todo != {}
      invariant todo <= names && n in names && n !in todo
      invariant forall m :: m in names && m !in todo && m != n ==> Before(n, m)
      decreases todo
    {
      var m :| m in todo;
      ghost var before := n;
      BeforeTotal(n, m);
      if !Before(n, m) {
        n := m;
        forall x | x in names && x !in todo && x != before ensures Before(m, x) {
          BeforeTransitive(m, before, x);
        }
      }
      todo := todo - {m};
    }
  }

  /** The names of a set, sorted. */
  method Sorted(names: set<Resource>) returns (order: seq<Resource>)
    ensures InOrder(order) && forall r :: r in order <==> r in names
  {
    order := [];
    var todo := names;
    while todo != {}
      invariant todo <= names && InOrder(order)
      invariant forall r :: r in order <==> r in names - todo
      invariant forall r, r' :: r in order && r' in todo ==> Before(r, r')
      decreases todo
    {
      var n := Least(todo);
      forall i | 0 <= i < |order| ensures Before(order[i], n) {
        assert order[i] in order;
      }
      order := order + [n];
      todo := todo - {n};
    }
  }
}
