/** Replacing secrets by stars (mainLogger.mask in api/v1/logger.go).  A Go string is a sequence of
    bytes; each char here is one byte. */
module Masking {

  function Stars(n: nat): (r: string)
    ensures |r| == n && forall i :: 0 <= i < n ==> r[i] == '*'
  {
    seq(n, i => '*')
  }

  /** strings.Replace(s, m, Stars(|m|), -1): greedy from the left; an empty mask is its own
      replacement and changes nothing. */
  function MaskOne(s: string, m: string): (r: string)
    ensures |r| == |s|
    decreases |s|
  {
    if m == "" || |s| < |m| then s
    else if s[..|m|] == m then Stars(|m|) + MaskOne(s[|m|..], m)
    else [s[0]] + MaskOne(s[1..], m)
  }

  function MaskAll(s: string, masks: seq<string>): (r: string)
    ensures |r| == |s|
    decreases |masks|
  {
    if masks == [] then s else MaskOne(MaskAll(s, masks[..|masks| - 1]), masks[|masks| - 1])
  }

  predicate OccursAt(m: string, s: string, p: int) {
    0 <= p && p + |m| <= |s| && s[p..p + |m|] == m
  }

  ghost predicate Occurs(m: string, s: string) {
    exists p :: OccursAt(m, s, p)
  }

  predicate StarFree(m: string) {
    forall j :: 0 <= j < |m| ==> m[j] != '*'
  }

  /** r is s with some positions starred. */
  predicate Starred(r: string, s: string) {
    |r| == |s| && forall i :: 0 <= i < |s| ==> r[i] == s[i] || r[i] == '*'
  }

  /** Position i of s lies in an occurrence of m. */
  predicate Hit(m: string, s: string, i: nat) {
    exists p :: p <= i < p + |m| && OccursAt(m, s, p)
  }

  lemma OccursTail(m: string, s: string, k: nat, p: int)
    requires k <= |s| && k <= p
    ensures OccursAt(m, s, p) <==> OccursAt(m, s[k..], p - k)
  {
    if p + |m| <= |s| {
      assert s[k..][p - k..p - k + |m|] == s[p..p + |m|];
    }
  }

  lemma OccursChar(m: string, s: string, p: int, i: int)
    requires OccursAt(m, s, p) && p <= i < p + |m|
    ensures s[i] == m[i - p]
  {
    assert s[p..p + |m|][i - p] == s[i];
  }

  /** How far one round of the replacement gets. */
  function Head(s: string, m: string): nat
    requires |m| <= |s|
  {
    if s[..|m|] == m then |m| else 1
  }

  lemma MaskHead(s: string, m: string) returns (first: string, rest: string)
    requires m != "" && |m| <= |s|
    ensures MaskOne(s, m) == first + rest
    ensures |first| == Head(s, m) && rest == MaskOne(s[|first|..], m)
    ensures OccursAt(m, s, 0) <==> s[..|m|] == m
    ensures first == if OccursAt(m, s, 0) then Stars(|m|) else [s[0]]
  {
    first := if s[..|m|] == m then Stars(|m|) else [s[0]];
    rest := MaskOne(s[|first|..], m);
    assert s[0..0 + |m|] == s[..|m|];
  }

  lemma {:induction false} MaskOneStars(s: string, m: string, i: nat)
    requires i < |s|
    ensures MaskOne(s, m)[i] == s[i] || (MaskOne(s, m)[i] == '*' && Hit(m, s, i))
    decreases |s|
  {
    if m != "" && |s| >= |m| {
      var first, rest := MaskHead(s, m);
      var h := |first|;
      if i >= h {
        MaskOneStars(s[h..], m, i - h);
        HitTail(m, s, h, i);
      }
    }
  }

  lemma HitTail(m: string, s: string, k: nat, i: nat)
    requires k <= i < |s|
    ensures Hit(m, s[k..], i - k) ==> Hit(m, s, i)
  {
    if p :| p <= i - k < p + |m| && OccursAt(m, s[k..], p) {
      OccursTail(m, s, k, p + k);
    }
  }

  lemma MaskOneStarred(s: string, m: string)
    ensures Starred(MaskOne(s, m), s)
  {
    forall i | 0 <= i < |s| ensures MaskOne(s, m)[i] == s[i] || MaskOne(s, m)[i] == '*' {
      MaskOneStars(s, m, i);
    }
  }

  /** A replaced block of stars. */
  predicate Block(r: string, s: string, m: string, q: int) {
    OccursAt(m, s, q) && q + |m| <= |r| && forall i :: q <= i < q + |m| ==> r[i] == '*'
  }

  lemma BlockTail(first: string, rest: string, s: string, m: string, q: nat)
    requires |first| <= |s| && |rest| == |s| - |first| && Block(rest, s[|first|..], m, q)
    ensures Block(first + rest, s, m, q + |first|)
  {
    var h := |first|;
    OccursTail(m, s, h, q + h);
    forall i | q + h <= i < q + h + |m| ensures (first + rest)[i] == '*' {
      assert rest[i - h] == '*';
    }
  }

  /** The greedy replacement leaves no occurrence of a mask without overlapping it. */
  lemma {:induction false} EveryOccurrenceHit(s: string, m: string, p: nat) returns (q: nat)
    requires m != "" && OccursAt(m, s, p)
    ensures Block(MaskOne(s, m), s, m, q) && q - |m| < p < q + |m|
    decreases |s|
  {
    var first, rest := MaskHead(s, m);
    var h := |first|;
    if OccursAt(m, s, 0) && p < |m| {
      q := 0;
    } else {
      OccursTail(m, s, h, p);
      q := EveryOccurrenceHit(s[h..], m, p - h);
      BlockTail(first, rest, s, m, q);
      q := q + h;
    }
  }

  /** A star-free occurrence in a starred text was there before. */
  lemma StarFreeOccurrence(m: string, r: string, s: string, p: int)
    requires StarFree(m) && Starred(r, s) && OccursAt(m, r, p)
    ensures OccursAt(m, s, p)
  {
    forall i | p <= i < p + |m| ensures s[i] == r[i] {
      OccursChar(m, r, p, i);
    }
    assert s[p..p + |m|] == r[p..p + |m|];
  }

  lemma MaskOneRemoves(s: string, m: string)
    requires m != "" && StarFree(m)
    ensures !Occurs(m, MaskOne(s, m))
  {
    var r := MaskOne(s, m);
    MaskOneStarred(s, m);
    if p :| OccursAt(m, r, p) {
      StarFreeOccurrence(m, r, s, p);
      var q := EveryOccurrenceHit(s, m, p);
      var i := if p <= q then q else p;
      OccursChar(m, r, p, i);
    }
  }

  lemma {:induction false} NoOccurrenceNoChange(s: string, m: string)
    requires m == "" || !Occurs(m, s)
    ensures MaskOne(s, m) == s
    decreases |s|
  {
    if m != "" && |s| >= |m| {
      var first, rest := MaskHead(s, m);
      forall p ensures !OccursAt(m, s[1..], p) {
        if p >= 0 {
          OccursTail(m, s, 1, p + 1);
        }
      }
      NoOccurrenceNoChange(s[1..], m);
    }
  }

  /** Whatever the masks, masking only stars positions. */
  lemma {:induction false} MaskAllStarred(s: string, masks: seq<string>)
    ensures Starred(MaskAll(s, masks), s)
    decreases |masks|
  {
    if masks != [] {
      var n := |masks| - 1;
      MaskAllStarred(s, masks[..n]);
      MaskOneStarred(MaskAll(s, masks[..n]), masks[n]);
    }
  }

  predicate AllStarFree(masks: seq<string>) {
    forall k :: 0 <= k < |masks| ==> StarFree(masks[k])
  }

  /** Masking removes every secret.  For any list of masks without stars, overlapping or not, the
      text keeps its length, every position is the original one or a star, a starred position lay in
      an occurrence of some mask in the original, and no mask occurs any more. */
  lemma {:induction false} MaskingRemovesSecrets(s: string, masks: seq<string>)
    requires AllStarFree(masks)
    ensures Starred(MaskAll(s, masks), s)
    ensures forall i :: 0 <= i < |s| && MaskAll(s, masks)[i] != s[i] ==> exists k :: 0 <= k < |masks| && Hit(masks[k], s, i)
    ensures forall k :: 0 <= k < |masks| && masks[k] != "" ==> !Occurs(masks[k], MaskAll(s, masks))
    decreases |masks|
  {
    if masks != [] {
      var n := |masks| - 1;
      var before, m := MaskAll(s, masks[..n]), masks[n];
      var after := MaskAll(s, masks);
      MaskingRemovesSecrets(s, masks[..n]);
      MaskOneStarred(before, m);
      forall i | 0 <= i < |s| && after[i] != s[i] ensures exists k :: 0 <= k < |masks| && Hit(masks[k], s, i) {
        LastMaskHits(s, before, m, i);
        if before[i] != s[i] {
          var k :| 0 <= k < n && Hit(masks[..n][k], s, i);
          assert Hit(masks[k], s, i);
        } else {
          assert Hit(masks[n], s, i);
        }
      }
      forall k | 0 <= k < |masks| && masks[k] != "" ensures !Occurs(masks[k], after) {
        if k == n {
          MaskOneRemoves(before, m);
        } else {
          assert masks[..n][k] == masks[k];
          forall p ensures !OccursAt(masks[k], after, p) {
            if OccursAt(masks[k], after, p) {
              StarFreeOccurrence(masks[k], after, before, p);
              assert false;
            }
          }
        }
      }
    }
  }

  lemma LastMaskHits(s: string, before: string, m: string, i: nat)
    requires StarFree(m) && Starred(before, s) && i < |s|
    ensures MaskOne(before, m)[i] != before[i] ==> Hit(m, s, i)
  {
    MaskOneStars(before, m, i);
    if Hit(m, before, i) {
      var p :| p <= i < p + |m| && OccursAt(m, before, p);
      StarFreeOccurrence(m, before, s, p);
    }
  }

  /** A text in which no mask occurs is left as it is. */
  lemma {:induction false} NothingToMask(s: string, masks: seq<string>)
    requires forall k :: 0 <= k < |masks| && masks[k] != "" ==> !Occurs(masks[k], s)
    ensures MaskAll(s, masks) == s
    decreases |masks|
  {
    if masks != [] {
      var n := |masks| - 1;
      assert forall k :: 0 <= k < n ==> masks[..n][k] == masks[k];
      NothingToMask(s, masks[..n]);
      NoOccurrenceNoChange(s, masks[n]);
    }
  }

  lemma MaskingIdempotent(s: string, masks: seq<string>)
    requires AllStarFree(masks)
    ensures MaskAll(MaskAll(s, masks), masks) == MaskAll(s, masks)
  {
    MaskingRemovesSecrets(s, masks);
    NothingToMask(MaskAll(s, masks), masks);
  }

  /*** Masks with stars. ***/

  lemma {:induction false} ChangedInBlock(s: string, m: string, i: nat) returns (q: nat)
    requires i < |s| && MaskOne(s, m)[i] != s[i]
    ensures q <= i < q + |m| && Block(MaskOne(s, m), s, m, q)
    decreases |s|
  {
    var first, rest := MaskHead(s, m);
    var h := |first|;
    if i < h {
      q := 0;
    } else {
      q := ChangedInBlock(s[h..], m, i - h);
      BlockTail(first, rest, s, m, q);
      q := q + h;
    }
  }

  /** Masking s with m alone leaves m in the text. */
  ghost predicate Leaks(m: string, s: string) {
    Occurs(m, MaskOne(s, m))
  }

  /** One mask alone is safe, whatever the text, exactly when it is nonempty and neither begins nor
      ends with a star. */
  lemma SingleMaskSafeExactly(m: string)
    ensures (forall s :: !Leaks(m, s)) <==> m != "" && m[0] != '*' && m[|m| - 1] != '*'
  {
    if m == "" {
      EmptyOccurs(MaskOne("", m));
      assert Leaks(m, "");
    } else if m[0] == '*' {
      var s := LeadingStarUnsafe(m);
      assert Leaks(m, s);
    } else if m[|m| - 1] == '*' {
      var s := TrailingStarUnsafe(m);
      assert Leaks(m, s);
    } else {
      forall s ensures !Leaks(m, s) {
        EdgesSafe(s, m);
      }
    }
  }

  lemma EmptyOccurs(s: string)
    ensures Occurs("", s)
  {
    assert OccursAt("", s, 0);
  }

  /** An occurrence in the result would overlap a block of stars with its first or last position. */
  lemma EdgesSafe(s: string, m: string)
    requires m != "" && m[0] != '*' && m[|m| - 1] != '*'
    ensures !Occurs(m, MaskOne(s, m))
  {
    var r := MaskOne(s, m);
    if p :| OccursAt(m, r, p) {
      var q := OverlapsBlock(s, m, p);
      OccursChar(m, r, p, if q <= p then p else p + |m| - 1);
    }
  }

  lemma OverlapsBlock(s: string, m: string, p: nat) returns (q: nat)
    requires m != "" && OccursAt(m, MaskOne(s, m), p)
    ensures Block(MaskOne(s, m), s, m, q) && q - |m| < p < q + |m|
  {
    var r := MaskOne(s, m);
    if i :| p <= i < p + |m| && r[i] != s[i] {
      q := ChangedInBlock(s, m, i);
    } else {
      assert s[p..p + |m|] == r[p..p + |m|];
      q := EveryOccurrenceHit(s, m, p);
    }
  }

  lemma LeadingStarUnsafe(m: string) returns (s: string)
    requires m != "" && m[0] == '*'
    ensures Occurs(m, MaskOne(s, m))
  {
    s := m + m[1..];
    assert s[..|m|] == m && s[|m|..] == m[1..];
    assert MaskOne(s, m) == Stars(|m|) + m[1..];
    assert OccursAt(m, MaskOne(s, m), |m| - 1);
  }

  /** No occurrence of m begins inside the first |m| - 1 positions of m[..|m| - 1] + m. */
  lemma TrailingStarFirst(m: string, p: nat)
    requires m != "" && m[0] != '*' && m[|m| - 1] == '*' && p < |m| - 1
    ensures !OccursAt(m, m[..|m| - 1] + m, p)
  {
    var s := m[..|m| - 1] + m;
    if OccursAt(m, s, p) {
      OccursChar(m, s, p, p);
      OccursChar(m, s, p, p + |m| - 1);
    }
  }

  lemma {:induction false} SkipPrefix(s: string, m: string, k: nat)
    requires m != "" && k + |m| <= |s| && forall p :: 0 <= p < k ==> !OccursAt(m, s, p)
    ensures MaskOne(s, m) == s[..k] + MaskOne(s[k..], m)
    decreases k
  {
    if k == 0 {
      assert s[0..] == s;
    } else {
      var first, tail := MaskHead(s, m);
      assert !OccursAt(m, s, 0);
      forall p | 0 <= p < k - 1 ensures !OccursAt(m, s[1..], p) {
        OccursTail(m, s, 1, p + 1);
        assert !OccursAt(m, s, p + 1);
      }
      SkipPrefix(s[1..], m, k - 1);
      PrefixParts(s, k, MaskOne(s[k..], m));
    }
  }

  /** The first occurrence is replaced and the text after it masked on its own; with
      NoOccurrenceNoChange this is all there is to masking. */
  lemma FirstReplaced(s: string, m: string, k: nat)
    requires m != "" && OccursAt(m, s, k) && forall p :: 0 <= p < k ==> !OccursAt(m, s, p)
    ensures MaskOne(s, m) == s[..k] + Stars(|m|) + MaskOne(s[k + |m|..], m)
  {
    SkipPrefix(s, m, k);
    assert s[k..][..|m|] == m && s[k..][|m|..] == s[k + |m|..];
    var first, rest := MaskHead(s[k..], m);
  }

  lemma PrefixParts(s: string, k: nat, rest: string)
    requires 0 < k <= |s|
    ensures s[1..][k - 1..] == s[k..]
    ensures [s[0]] + (s[1..][..k - 1] + rest) == s[..k] + rest
  {
  }

  lemma TrailingStarUnsafe(m: string) returns (s: string)
    requires m != "" && m[0] != '*' && m[|m| - 1] == '*'
    ensures Occurs(m, MaskOne(s, m))
  {
    var n := |m| - 1;
    s := m[..n] + m;
    forall p | 0 <= p < n ensures !OccursAt(m, s, p) {
      TrailingStarFirst(m, p);
    }
    SkipPrefix(s, m, n);
    assert s[n..] == m && s[..n] == m[..n];
    MaskSelf(m);
    PrefixOccurs(m, MaskOne(m, m));
  }

  lemma MaskSelf(m: string)
    requires m != ""
    ensures MaskOne(m, m)[0] == '*'
  {
    assert m[..|m|] == m;
    var first, rest := MaskHead(m, m);
  }

  lemma PrefixOccurs(m: string, t: string)
    requires m != "" && t != "" && t[0] == m[|m| - 1]
    ensures Occurs(m, m[..|m| - 1] + t)
  {
    var r := m[..|m| - 1] + t;
    assert r[0..|m|] == m;
    assert OccursAt(m, r, 0);
  }

  /** Position q of m begins a run of n stars. */
  predicate StarsAt(m: string, q: nat, n: nat) {
    q + n <= |m| && forall i :: q <= i < q + n ==> m[i] == '*'
  }

  predicate HasStars(m: string, n: nat) {
    exists q: nat :: q < |m| && StarsAt(m, q, n)
  }

  /** No mask begins or ends with a star, and none has a run of stars as long as a later mask. */
  predicate ListSafe(masks: seq<string>) {
    && (forall k :: 0 <= k < |masks| && masks[k] != "" ==> masks[k][0] != '*' && masks[k][|masks[k]| - 1] != '*')
    && (forall k, l :: 0 <= k < l < |masks| && masks[k] != "" && masks[l] != "" ==> !HasStars(masks[k], |masks[l]|))
  }

  /** A block of stars that meets an occurrence of m but neither its first nor its last position would
      be a run of stars in m. */
  lemma BlockInside(r: string, s: string, later: string, q: nat, m: string, p: nat, i: nat)
    requires later != "" && m != "" && m[0] != '*' && m[|m| - 1] != '*'
    requires Block(r, s, later, q) && OccursAt(m, r, p) && q <= i < q + |later| && p <= i < p + |m|
    ensures HasStars(m, |later|)
  {
    OccursChar(m, r, p, p);
    OccursChar(m, r, p, p + |m| - 1);
    assert p < q && q + |later| < p + |m|;
    forall j | q - p <= j < q - p + |later| ensures m[j] == '*' {
      OccursChar(m, r, p, p + j);
    }
    assert StarsAt(m, q - p, |later|);
  }

  lemma LaterMaskLeavesOut(t: string, m: string, later: string)
    requires m != "" && m[0] != '*' && m[|m| - 1] != '*' && !Occurs(m, t)
    requires later != "" ==> !HasStars(m, |later|)
    ensures !Occurs(m, MaskOne(t, later))
  {
    var r := MaskOne(t, later);
    if p :| OccursAt(m, r, p) {
      if i :| p <= i < p + |m| && r[i] != t[i] {
        var q := ChangedInBlock(t, later, i);
        BlockInside(r, t, later, q, m, p, i);
      } else {
        UnchangedOccurrence(m, r, t, p);
      }
    }
  }

  lemma UnchangedOccurrence(m: string, r: string, t: string, p: int)
    requires OccursAt(m, r, p) && |r| == |t| && forall i :: p <= i < p + |m| ==> r[i] == t[i]
    ensures Occurs(m, t)
  {
    assert t[p..p + |m|] == r[p..p + |m|];
    assert OccursAt(m, t, p);
  }

  /** Stars within masks do no harm as long as no mask begins or ends with one and no run of them is as
      long as a later mask: then every mask is removed from every text. */
  lemma {:induction false} ListSafeRemoves(s: string, masks: seq<string>)
    requires ListSafe(masks)
    ensures forall k :: 0 <= k < |masks| && masks[k] != "" ==> !Occurs(masks[k], MaskAll(s, masks))
    decreases |masks|
  {
    if masks != [] {
      var n := |masks| - 1;
      var before, m := MaskAll(s, masks[..n]), masks[n];
      ListSafeRemoves(s, masks[..n]);
      forall k | 0 <= k < |masks| && masks[k] != "" ensures !Occurs(masks[k], MaskAll(s, masks)) {
        if k == n {
          EdgesSafe(before, m);
        } else {
          assert masks[..n][k] == masks[k];
          LaterMaskLeavesOut(before, masks[k], m);
        }
      }
    }
  }

  lemma ListSafePrefix(masks: seq<string>, n: nat)
    requires ListSafe(masks) && n <= |masks|
    ensures ListSafe(masks[..n])
  {
  }

  /** Star-free masks are such a list. */
  lemma StarFreeListSafe(masks: seq<string>)
    requires AllStarFree(masks)
    ensures ListSafe(masks)
  {
    forall k, l | 0 <= k < l < |masks| && masks[k] != "" && masks[l] != "" ensures !HasStars(masks[k], |masks[l]|) {
      assert StarFree(masks[k]);
      forall q: nat | q < |masks[k]| ensures !StarsAt(masks[k], q, |masks[l]|) {
        assert masks[k][q] != '*';
      }
    }
    forall k | 0 <= k < |masks| && masks[k] != "" ensures masks[k][0] != '*' && masks[k][|masks[k]| - 1] != '*' {
      assert StarFree(masks[k]);
    }
  }

  /*** Exactly when a mask within a list is removed. ***/

  /** A position that stays in sight splits the text: what follows is masked on its own. */
  lemma {:induction false} MaskOneFrom(s: string, m: string, p: nat)
    requires p < |s| && MaskOne(s, m)[p] != '*'
    ensures MaskOne(s, m)[p..] == MaskOne(s[p..], m)
    decreases |s|
  {
    if m != "" && |s| >= |m| && p > 0 {
      var first, rest := MaskHead(s, m);
      var h := |first|;
      assert p >= h;
      MaskOneFrom(s[h..], m, p - h);
      assert s[h..][p - h..] == s[p..];
    }
  }

  lemma {:induction false} MaskOneUpTo(s: string, m: string, q: nat)
    requires q <= |s| && (q > 0 ==> MaskOne(s, m)[q - 1] != '*')
    ensures MaskOne(s, m)[..q] == MaskOne(s[..q], m)
    decreases |s|
  {
    if m != "" && |s| >= |m| && q > 0 {
      var first, rest := MaskHead(s, m);
      var h := |first|;
      assert q >= h;
      MaskOneUpTo(s[h..], m, q - h);
      assert s[h..][..q - h] == s[..q][h..];
      if q >= |m| {
        assert s[..q][..|m|] == s[..|m|];
      }
    }
  }

  lemma MaskOneWindow(s: string, m: string, p: nat, q: nat)
    requires p < q <= |s| && MaskOne(s, m)[p] != '*' && MaskOne(s, m)[q - 1] != '*'
    ensures MaskOne(s, m)[p..q] == MaskOne(s[p..q], m)
  {
    var r := MaskOne(s, m);
    MaskOneFrom(s, m, p);
    assert r[p..][q - 1 - p] == r[q - 1];
    MaskOneUpTo(s[p..], m, q - p);
    assert r[p..][..q - p] == r[p..q] && s[p..][..q - p] == s[p..q];
  }

  /** Between two positions that stay in sight a text is masked as if it were all there is. */
  lemma {:induction false} MaskAllWindow(s: string, masks: seq<string>, p: nat, q: nat)
    requires p < q <= |s| && MaskAll(s, masks)[p] != '*' && MaskAll(s, masks)[q - 1] != '*'
    ensures MaskAll(s, masks)[p..q] == MaskAll(s[p..q], masks)
    decreases |masks|
  {
    if masks != [] {
      var n := |masks| - 1;
      var before := MaskAll(s, masks[..n]);
      MaskOneStarred(before, masks[n]);
      MaskAllWindow(s, masks[..n], p, q);
      MaskOneWindow(before, masks[n], p, q);
    }
  }

  /** Masking a text that has m's characters outside m's stars makes m. */
  ghost predicate Makes(m: string, masks: seq<string>) {
    exists w :: Starred(m, w) && MaskAll(w, masks) == m
  }

  /** A mask that neither begins nor ends with a star is removed from every text, however long and
      whatever the other masks, exactly when it cannot be made from itself with other characters in
      place of its stars; without stars that is one text to look at. */
  lemma RemovedExactly(m: string, masks: seq<string>)
    requires m != "" && m[0] != '*' && m[|m| - 1] != '*'
    ensures (forall s :: !Occurs(m, MaskAll(s, masks))) <==> !Makes(m, masks)
  {
    if w :| Starred(m, w) && MaskAll(w, masks) == m {
      assert OccursAt(m, MaskAll(w, masks), 0);
      assert Occurs(m, MaskAll(w, masks));
    }
    forall s | Occurs(m, MaskAll(s, masks)) ensures Makes(m, masks) {
      var p :| OccursAt(m, MaskAll(s, masks), p);
      OccurrenceMade(s, m, masks, p);
    }
  }

  lemma OccurrenceMade(s: string, m: string, masks: seq<string>, p: nat)
    requires m != "" && m[0] != '*' && m[|m| - 1] != '*' && OccursAt(m, MaskAll(s, masks), p)
    ensures Makes(m, masks)
  {
    var r, q := MaskAll(s, masks), p + |m|;
    OccursChar(m, r, p, p);
    OccursChar(m, r, p, q - 1);
    MaskAllWindow(s, masks, p, q);
    MaskAllStarred(s[p..q], masks);
    assert Starred(m, s[p..q]) && MaskAll(s[p..q], masks) == m;
  }

  predicate EdgesFree(masks: seq<string>) {
    forall k :: 0 <= k < |masks| && masks[k] != "" ==> masks[k][0] != '*' && masks[k][|masks[k]| - 1] != '*'
  }

  ghost predicate RemovesAll(masks: seq<string>) {
    forall k, s :: 0 <= k < |masks| && masks[k] != "" ==> !Occurs(masks[k], MaskAll(s, masks))
  }

  /** A list of masks that neither begin nor end with a star removes all of them from every text exactly
      when none of them can be made. */
  lemma ListRemovesExactly(masks: seq<string>)
    requires EdgesFree(masks)
    ensures RemovesAll(masks) <==> forall k :: 0 <= k < |masks| && masks[k] != "" ==> !Makes(masks[k], masks)
  {
    forall k | 0 <= k < |masks| && masks[k] != ""
      ensures (forall s :: !Occurs(masks[k], MaskAll(s, masks))) <==> !Makes(masks[k], masks)
    {
      RemovedExactly(masks[k], masks);
    }
  }

  /** With several masks a star inside one is enough: the second replacement can bring back the first
      mask although each of them is safe alone. */
  lemma InnerStarUnsafe()
    ensures !Occurs("a*b", "axb") && Occurs("a*b", MaskAll("axb", ["a*b", "x"]))
  {
    var s := "axb";
    forall p ensures !OccursAt("a*b", s, p) {
      assert p == 0 ==> s[p + 1] != "a*b"[1];
    }
    var masks := ["a*b", "x"];
    assert masks[..1] == ["a*b"] && masks[..1][..0] == [];
    NoOccurrenceNoChange(s, "a*b");
    assert MaskAll(s, masks[..1]) == s;
    assert MaskOne(s, "x") == "a*b" by {
      assert s[1..] == "xb" && "xb"[..1] == "x" && "xb"[1..] == "b" && "b"[1..] == "";
      assert MaskOne("b", "x") == "b";
      assert MaskOne("xb", "x") == Stars(1) + "b" == "*b";
    }
    assert OccursAt("a*b", "a*b", 0);
  }
}
