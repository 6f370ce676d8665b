/** Facts about sequences and multisets that the other modules share. */
module Seqs {

  function Flatten<T>(ss: seq<seq<T>>): seq<T> {
    if ss == [] then [] else ss[0] + Flatten(ss[1..])
  }

  lemma {:induction false} FlattenConcat<T>(a: seq<seq<T>>, b: seq<seq<T>>)
    ensures Flatten(a + b) == Flatten(a) + Flatten(b)
  {
    if a == [] {
      assert a + b == b;
    } else {
      var ab := a + b;
      assert ab[0] == a[0] && ab[1..] == a[1..] + b;
      FlattenConcat(a[1..], b);
      assert a[0] + (Flatten(a[1..]) + Flatten(b)) == (a[0] + Flatten(a[1..])) + Flatten(b);
    }
  }

  lemma FlattenSnoc<T>(a: seq<seq<T>>, s: seq<T>)
    ensures Flatten(a + [s]) == Flatten(a) + s
  {
    FlattenConcat(a, [s]);
    assert Flatten([s]) == s + Flatten<T>([]);
  }

  function Sum(s: seq<nat>): nat {
    if s == [] then 0 else s[0] + Sum(s[1..])
  }

  lemma {:induction false} SumUpdate(s: seq<nat>, i: nat, v: nat)
    requires i < |s|
    ensures Sum(s[i := v]) == Sum(s) - s[i] + v
  {
    if i == 0 {
      assert s[i := v][1..] == s[1..];
    } else {
      SumUpdate(s[1..], i - 1, v);
      assert s[i := v][1..] == s[1..][i - 1 := v];
    }
  }

  /** The positions lo, lo + 1, ..., hi - 1. */
  function Range(lo: nat, hi: nat): (r: seq<nat>)
    requires lo <= hi
    ensures |r| == hi - lo
  {
    seq(hi - lo, i requires 0 <= i => lo + i)
  }

  predicate Distinct<T(==)>(s: seq<T>) {
    forall i, j :: 0 <= i < j < |s| ==> s[i] != s[j]
  }

  /** A sequence is free of repetitions exactly when no element occurs twice in its multiset. */
  lemma {:induction false} DistinctMultiplicity<T>(s: seq<T>)
    ensures Distinct(s) <==> forall x :: multiset(s)[x] <= 1
  {
    if s != [] {
      var t := s[..|s| - 1];
      var last := s[|s| - 1];
      assert s == t + [last];
      DistinctMultiplicity(t);
      if Distinct(s) {
        assert last !in t;
        assert multiset(t)[last] == 0;
      }
      if forall x :: multiset(s)[x] <= 1 {
        forall x ensures multiset(t)[x] <= 1 {
          assert multiset(s)[x] <= 1;
        }
        assert multiset(s)[last] <= 1;
        assert last !in multiset(t);
      }
    }
  }

  lemma RangeMultiplicity(n: nat)
    ensures forall p: nat :: multiset(Range(0, n))[p] == if p < n then 1 else 0
  {
    var r := Range(0, n);
    DistinctMultiplicity(r);
    forall p: nat ensures multiset(r)[p] == if p < n then 1 else 0 {
      if p < n {
        assert r[p] == p;
        assert p in multiset(r);
      } else {
        assert p !in r;
      }
    }
  }

  function Select<T>(s: seq<T>, ps: seq<nat>): (r: seq<T>)
    requires forall i :: 0 <= i < |ps| ==> ps[i] < |s|
    ensures |r| == |ps|
  {
    seq(|ps|, i requires 0 <= i < |ps| => s[ps[i]])
  }

  /** Reading distinct positions never yields more copies of a value than the sequence holds. */
  lemma {:induction false} SelectDistinct<T>(s: seq<T>, ps: seq<nat>)
    requires forall i :: 0 <= i < |ps| ==> ps[i] < |s|
    requires Distinct(ps)
    ensures multiset(Select(s, ps)) <= multiset(s)
    decreases |s|
  {
    if ps == [] {
    } else {
      assert ps[0] < |s|;
      var n := |s| - 1;
      var t := s[..n];
      assert s == t + [s[n]];
      if k :| 0 <= k < |ps| && ps[k] == n {
        var qs := ps[..k] + ps[k + 1..];
        SelectDistinct(t, qs);
        assert Select(s, ps) == Select(t, qs)[..k] + [s[n]] + Select(t, qs)[k..];
        assert Select(t, qs) == Select(t, qs)[..k] + Select(t, qs)[k..];
      } else {
        SelectDistinct(t, ps);
        assert Select(s, ps) == Select(t, ps);
      }
    }
  }

  lemma MultisetSubsetSize<T>(a: multiset<T>, b: multiset<T>)
    requires a <= b
    ensures |a| <= |b|
    ensures |a| == |b| ==> a == b
  {
    assert b == a + (b - a);
  }

  lemma {:induction false} InFlatten<T>(ss: seq<seq<T>>, i: nat, x: T)
    requires i < |ss| && x in ss[i]
    ensures x in Flatten(ss)
    decreases i
  {
    if i > 0 {
      InFlatten(ss[1..], i - 1, x);
    }
  }

  lemma {:induction false} FlattenPosition<T>(ss: seq<seq<T>>, x: T) returns (g: nat, i: nat)
    requires x in Flatten(ss)
    ensures g < |ss| && i < |ss[g]| && ss[g][i] == x
  {
    if x in ss[0] {
      g := 0;
      i :| 0 <= i < |ss[0]| && ss[0][i] == x;
    } else {
      g, i := FlattenPosition(ss[1..], x);
      g := g + 1;
    }
  }

  lemma {:induction false} FlattenDisjoint<T>(ss: seq<seq<T>>, g: nat, i: nat, h: nat, j: nat)
    requires Distinct(Flatten(ss))
    requires g < h < |ss| && i < |ss[g]| && j < |ss[h]|
    ensures ss[g][i] != ss[h][j]
    decreases g
  {
    var rest := Flatten(ss[1..]);
    var all := Flatten(ss);
    assert all == ss[0] + rest;
    assert Distinct(rest) by {
      forall a, b | 0 <= a < b < |rest| ensures rest[a] != rest[b] {
        assert all[|ss[0]| + a] == rest[a] && all[|ss[0]| + b] == rest[b];
      }
    }
    if g == 0 {
      InFlatten(ss[1..], h - 1, ss[h][j]);
      var k :| 0 <= k < |rest| && rest[k] == ss[h][j];
      assert all[i] == ss[0][i] && all[|ss[0]| + k] == rest[k];
    } else {
      FlattenDisjoint(ss[1..], g - 1, i, h - 1, j);
    }
  }

  /** Distinct values between lo and hi number at most hi - lo. */
  lemma DistinctInRange(s: seq<nat>, lo: nat, hi: nat)
    requires lo <= hi && Distinct(s)
    requires forall x :: x in s ==> lo <= x < hi
    ensures |s| <= hi - lo
  {
    var r := Range(lo, hi);
    DistinctMultiplicity(s);
    forall x: nat ensures multiset(s)[x] <= multiset(r)[x] {
      if x in s {
        assert r[x - lo] == x;
      }
    }
    assert multiset(s) <= multiset(r);
    MultisetSubsetSize(multiset(s), multiset(r));
  }
}
