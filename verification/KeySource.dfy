/** Reading strategy keys from the output of a task (dynamicKeys and sourceDelim in
    api/v1/scheduler.go).  The output is text in code points; the filter, a regular expression in the
    source, is any predicate. */
module KeySource {
  import opened Wrappers
  import opened Masking
  import opened Logger

  /** The position of the first occurrence of d. */
  function FirstIndex(s: string, d: string): Option<nat>
    decreases |s|
  {
    if |s| < |d| then None
    else if s[..|d|] == d then Some(0)
    else if s == "" then None
    else
      match FirstIndex(s[1..], d)
      case None => None
      case Some(p) => Some(p + 1)
  }

  lemma {:induction false} FirstIndexFirst(s: string, d: string)
    ensures FirstIndex(s, d).None? <==> !Occurs(d, s)
    ensures FirstIndex(s, d).Some? ==> OccursAt(d, s, FirstIndex(s, d).value)
    ensures FirstIndex(s, d).Some? ==> forall p :: 0 <= p < FirstIndex(s, d).value ==> !OccursAt(d, s, p)
    decreases |s|
  {
    if |s| >= |d| {
      assert s[0..0 + |d|] == s[..|d|];
      assert OccursAt(d, s, 0) <==> s[..|d|] == d;
      if s != "" && s[..|d|] != d {
        FirstIndexFirst(s[1..], d);
        forall p | p >= 1 ensures OccursAt(d, s, p) <==> OccursAt(d, s[1..], p - 1) {
          OccursTail(d, s, 1, p);
        }
        if q :| OccursAt(d, s[1..], q) {
          assert OccursAt(d, s, q + 1);
        }
        if p :| OccursAt(d, s, p) {
          assert p >= 1;
          assert OccursAt(d, s[1..], p - 1);
        }
      }
    }
  }

  /** Only the first occurrence has these two properties. */
  lemma FirstIndexIs(s: string, d: string, p: nat)
    requires OccursAt(d, s, p) && forall q :: 0 <= q < p ==> !OccursAt(d, s, q)
    ensures FirstIndex(s, d) == Some(p)
  {
    FirstIndexFirst(s, d);
    assert Occurs(d, s);
    var f := FirstIndex(s, d).value;
    assert f >= p && !(f > p);
  }

  /** strings.Split for a nonempty delimiter. */
  function Split(s: string, d: string): (segments: seq<string>)
    requires d != ""
    ensures segments != []
    decreases |s|
  {
    FirstIndexFirst(s, d);
    match FirstIndex(s, d)
    case None => [s]
    case Some(p) => [s[..p]] + Split(s[p + |d|..], d)
  }

  /** No segment contains the delimiter, and joining the segments gives the text back. */
  lemma {:induction false} JoinOfSplit(s: string, d: string)
    requires d != ""
    ensures Join(Split(s, d), d) == s
    ensures forall i :: 0 <= i < |Split(s, d)| ==> !Occurs(d, Split(s, d)[i])
    decreases |s|
  {
    FirstIndexFirst(s, d);
    match FirstIndex(s, d) {
      case None =>
      case Some(p) =>
        var rest := Split(s[p + |d|..], d);
        JoinOfSplit(s[p + |d|..], d);
        BeforeFirst(s, d, p);
        JoinCons(s[..p], rest, d);
        assert s[..p] + s[p..p + |d|] + s[p + |d|..] == s;
        assert forall i :: 0 <= i < |Split(s, d)| ==> Split(s, d)[i] == if i == 0 then s[..p] else rest[i - 1];
    }
  }

  lemma JoinCons(first: string, rest: seq<string>, d: string)
    requires rest != []
    ensures Join([first] + rest, d) == first + d + Join(rest, d)
  {
    assert ([first] + rest)[1..] == rest;
  }

  lemma BeforeFirst(s: string, d: string, p: nat)
    requires d != "" && p + |d| <= |s| && forall q :: 0 <= q < p ==> !OccursAt(d, s, q)
    ensures !Occurs(d, s[..p])
  {
    if q :| OccursAt(d, s[..p], q) {
      assert s[..p][q..q + |d|] == s[q..q + |d|];
      assert OccursAt(d, s, q);
    }
  }

  /** A delimiter of which no proper prefix is also a suffix. */
  predicate Unbordered(d: string) {
    forall l :: 0 < l < |d| ==> d[..l] != d[|d| - l..]
  }

  /** An unbordered delimiter does not begin inside the segment before it. */
  lemma DelimiterAfterSegment(k: string, d: string, rest: string)
    requires d != "" && Unbordered(d) && !Occurs(d, k)
    ensures FirstIndex(k + (d + rest), d) == Some(|k|)
  {
    var s := k + (d + rest);
    assert s[|k|..|k| + |d|] == d;
    forall q | 0 <= q < |k| ensures !OccursAt(d, s, q) {
      if q + |d| <= |k| {
        assert s[q..q + |d|] == k[q..q + |d|];
        assert OccursAt(d, s, q) ==> OccursAt(d, k, q);
      } else {
        var l := q + |d| - |k|;
        Overlap(k, d, rest, q);
        assert d[..l] != d[|d| - l..];
      }
    }
    FirstIndexIs(s, d, |k|);
  }

  lemma Overlap(k: string, d: string, rest: string, q: nat)
    requires q < |k| < q + |d|
    ensures OccursAt(d, k + (d + rest), q) ==> d[..q + |d| - |k|] == d[|k| - q..]
  {
    var s := k + (d + rest);
    var l := q + |d| - |k|;
    assert s[|k|..|k| + l] == d[..l];
    if OccursAt(d, s, q) {
      assert s[q..q + |d|][|k| - q..] == s[|k|..|k| + l];
    }
  }

  lemma {:induction false} SplitOfJoin(ks: seq<string>, d: string)
    requires d != "" && Unbordered(d) && ks != []
    requires forall i :: 0 <= i < |ks| ==> !Occurs(d, ks[i])
    ensures Split(Join(ks, d), d) == ks
    decreases |ks|
  {
    var s := Join(ks, d);
    if |ks| == 1 {
      FirstIndexFirst(s, d);
    } else {
      var rest := Join(ks[1..], d);
      assert s == ks[0] + (d + rest);
      DelimiterAfterSegment(ks[0], d, rest);
      assert s[..|ks[0]|] == ks[0] && s[|ks[0]| + |d|..] == rest;
      SplitOfJoin(ks[1..], d);
    }
  }

  /** unicode.IsSpace. */
  predicate IsSpace(c: char) {
    || c == ' ' || '\t' <= c <= '\r'
    || c == '\U{85}' || c == '\U{A0}' || c == '\U{1680}' || '\U{2000}' <= c <= '\U{200A}'
    || c == '\U{2028}' || c == '\U{2029}' || c == '\U{202F}' || c == '\U{205F}' || c == '\U{3000}'
  }

  /** strings.TrimSpace leaves nothing. */
  predicate Blank(s: string) {
    forall i :: 0 <= i < |s| ==> IsSpace(s[i])
  }

  predicate Keeps(filter: Option<string -> bool>, key: string) {
    !Blank(key) && (filter.Some? ==> filter.value(key))
  }

  function Kept(segments: seq<string>, filter: Option<string -> bool>): seq<string> {
    if segments == [] then []
    else
      var n := |segments| - 1;
      Kept(segments[..n], filter) + (if Keeps(filter, segments[n]) then [segments[n]] else [])
  }

  /** sourceDelim. */
  function Delimiter(delim: string): (d: string)
    ensures d != ""
  {
    if delim == "" then "\n" else delim
  }

  method DynamicKeys(out: string, delim: string, filter: Option<string -> bool>) returns (keys: seq<string>)
    ensures keys == Kept(Split(out, Delimiter(delim)), filter)
  {
    keys := [];
    var segments := Split(out, Delimiter(delim));
    for i := 0 to |segments|
      invariant keys == Kept(segments[..i], filter)
    {
      assert segments[..i + 1][..i] == segments[..i];
      if Blank(segments[i]) {
        continue;
      }
      if filter.Some? && !filter.value(segments[i]) {
        continue;
      }
      keys := keys + [segments[i]];
    }
    assert segments[..|segments|] == segments;
  }

  /** ps lists, in increasing order, exactly the positions of the segments that have text and match the
      filter, if there is one. */
  predicate KeptPositions(ps: seq<nat>, segments: seq<string>, filter: Option<string -> bool>) {
    && (forall i, j :: 0 <= i < j < |ps| ==> ps[i] < ps[j])
    && (forall j :: 0 <= j < |ps| ==> ps[j] < |segments|)
    && (forall i: nat :: i < |segments| ==>
          (i in ps <==> HasText(segments[i]) && (filter.None? || filter.value(segments[i]))))
  }

  /** Some character is not a space. */
  predicate HasText(s: string) {
    exists i :: 0 <= i < |s| && !IsSpace(s[i])
  }

  predicate ReadAt(ks: seq<string>, ps: seq<nat>, segments: seq<string>) {
    |ks| == |ps| && forall j :: 0 <= j < |ps| ==> ps[j] < |segments| && ks[j] == segments[ps[j]]
  }

  lemma ReadSnoc(ks: seq<string>, ps: seq<nat>, segments: seq<string>, last: string)
    requires ReadAt(ks, ps, segments)
    ensures ReadAt(ks, ps, segments + [last])
    ensures ReadAt(ks + [last], ps + [|segments|], segments + [last])
  {
  }

  /** The keys are the nonblank segments that match the filter, in their order. */
  lemma {:induction false} KeptInOrder(segments: seq<string>, filter: Option<string -> bool>) returns (ps: seq<nat>)
    ensures KeptPositions(ps, segments, filter) && ReadAt(Kept(segments, filter), ps, segments)
  {
    if segments == [] {
      ps := [];
    } else {
      var init, last := segments[..|segments| - 1], segments[|segments| - 1];
      assert segments == init + [last];
      var before := KeptInOrder(init, filter);
      ps := KeptSnoc(init, last, filter, before);
    }
  }

  lemma KeptSnoc(init: seq<string>, last: string, filter: Option<string -> bool>, before: seq<nat>) returns (ps: seq<nat>)
    requires KeptPositions(before, init, filter) && ReadAt(Kept(init, filter), before, init)
    ensures KeptPositions(ps, init + [last], filter) && ReadAt(Kept(init + [last], filter), ps, init + [last])
  {
    ps := if Keeps(filter, last) then before + [|init|] else before;
    PositionsSnoc(before, init, last, filter);
    ReadSnoc(Kept(init, filter), before, init, last);
    assert (init + [last])[..|init|] == init;
  }

  lemma PositionsSnoc(before: seq<nat>, init: seq<string>, last: string, filter: Option<string -> bool>)
    requires KeptPositions(before, init, filter)
    ensures KeptPositions(if Keeps(filter, last) then before + [|init|] else before, init + [last], filter)
  {
    var segments := init + [last];
    var ps: seq<nat> := if Keeps(filter, last) then before + [|init|] else before;
    forall i: nat | i < |segments| ensures i in ps <==> HasText(segments[i]) && (filter.None? || filter.value(segments[i])) {
      if i < |init| {
        assert segments[i] == init[i];
        assert i in ps <==> i in before;
      } else {
        assert i !in before;
      }
    }
  }

  /** Keys that a delimiter can separate. */
  ghost predicate Separable(ks: seq<string>, d: string) {
    forall i :: 0 <= i < |ks| ==> !Blank(ks[i]) && !Occurs(d, ks[i])
  }

  lemma {:induction false} NothingFiltered(ks: seq<string>)
    requires forall i :: 0 <= i < |ks| ==> !Blank(ks[i])
    ensures Kept(ks, None) == ks
  {
    if ks != [] {
      NothingFiltered(ks[..|ks| - 1]);
    }
  }

  /** Keys joined with d and read again with the configured delimiter, without a filter, are the same. */
  ghost predicate RoundTrips(ks: seq<string>, d: string, delim: string) {
    Kept(Split(Join(ks, d), Delimiter(delim)), None) == ks
  }

  lemma UnborderedRoundTrips(ks: seq<string>, d: string)
    requires d != "" && Unbordered(d) && Separable(ks, d)
    ensures RoundTrips(ks, d, d)
  {
    if ks == [] {
      FirstIndexFirst("", d);
      assert Split("", d) == [""];
      assert [""][..0] == [];
    } else {
      SplitOfJoin(ks, d);
      NothingFiltered(ks);
    }
  }

  /** The default delimiter gives back every list of nonblank keys without line breaks. */
  lemma NewlineRoundTrips(ks: seq<string>)
    requires Separable(ks, "\n")
    ensures RoundTrips(ks, "\n", "")
  {
    UnborderedRoundTrips(ks, "\n");
  }

  /** Which delimiters give back every separable list of keys: exactly the unbordered ones. */
  lemma DelimiterRoundTripsExactly(d: string)
    requires d != ""
    ensures (forall ks :: Separable(ks, d) ==> RoundTrips(ks, d, d)) <==> Unbordered(d)
  {
    if Unbordered(d) {
      forall ks | Separable(ks, d) ensures RoundTrips(ks, d, d) {
        UnborderedRoundTrips(ks, d);
      }
    } else {
      var l :| 0 < l < |d| && d[..l] == d[|d| - l..];
      var ks := BorderedFails(d, l);
    }
  }

  /** A key that ends with the delimiter's beginning makes the delimiter start too early. */
  lemma BorderedFails(d: string, l: nat) returns (ks: seq<string>)
    requires 0 < l < |d| && d[..l] == d[|d| - l..]
    ensures Separable(ks, d) && !RoundTrips(ks, d, d)
  {
    var c := if d[0] == 'a' then 'b' else 'a';
    var k := [c] + d[..|d| - l];
    ks := [k, "z"];
    ShortKeys(d, k);
    assert ks == [k] + ["z"];
    JoinCons(k, ["z"], d);
    var segments := Split(Join(ks, d), d);
    SplitTooEarly(d, l, c, "z");
    FirstKept(segments, None);
    assert |ks[0]| > 1;
  }

  /** The first segment of the joined text is c alone. */
  lemma SplitTooEarly(d: string, l: nat, c: char, rest: string)
    requires 0 < l < |d| && d[..l] == d[|d| - l..] && c != d[0]
    ensures Split([c] + d[..|d| - l] + d + rest, d)[0] == [c]
  {
    var p := |d| - l;
    var s := [c] + d[..p] + d + rest;
    var moved := d[l..] + rest;
    assert d == d[..l] + d[l..] && d == d[..p] + d[p..];
    assert s == [c] + (d + moved);
    assert s[1..1 + |d|] == d;
    assert !OccursAt(d, s, 0) by {
      assert s[0..0 + |d|][0] == c;
    }
    FirstIndexIs(s, d, 1);
    assert s[..1] == [c];
  }

  lemma {:induction false} FirstKept(segments: seq<string>, filter: Option<string -> bool>)
    requires segments != [] && Keeps(filter, segments[0])
    ensures Kept(segments, filter) != [] && Kept(segments, filter)[0] == segments[0]
  {
    if |segments| > 1 {
      FirstKept(segments[..|segments| - 1], filter);
    } else {
      assert Kept(segments[..0], filter) == [];
    }
  }

  lemma ShortKeys(d: string, k: string)
    requires |d| >= 2 && 0 < |k| <= |d| && k[0] != d[0] && !IsSpace(k[0])
    ensures Separable([k, "z"], d)
  {
    if |k| == |d| {
      assert k[0..0 + |d|] == k;
    }
    assert !Occurs(d, k) && !Occurs(d, "z");
    assert !IsSpace("z"[0]);
  }
}
