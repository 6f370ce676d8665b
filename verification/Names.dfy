/** Printed names of the key containers and the artifact paths made from them
    (api/v1/task_builder.go, api/v1/artifact.go). */
module Names {
  function Digit(d: nat): (c: char)
    requires d < 10
    ensures '0' <= c <= '9'
  {
    '0' + d as char
  }

  /** Decimal notation, as fmt prints an unsigned integer with %d. */
  function Dec(n: nat): (s: string)
    ensures |s| >= 1
  {
    if n < 10 then [Digit(n)] else Dec(n / 10) + [Digit(n % 10)]
  }

  lemma {:induction false} DecDigits(n: nat)
    ensures forall i :: 0 <= i < |Dec(n)| ==> '0' <= Dec(n)[i] <= '9'
    decreases n
  {
    if n >= 10 {
      DecDigits(n / 10);
    }
  }

  lemma {:induction false} DecInjective(a: nat, b: nat)
    requires Dec(a) == Dec(b)
    ensures a == b
    decreases a
  {
    var s, t := Dec(a), Dec(b);
    assert s[|s| - 1] == t[|t| - 1];
    if a >= 10 && b >= 10 {
      assert s[..|s| - 1] == Dec(a / 10) && t[..|t| - 1] == Dec(b / 10);
      DecInjective(a / 10, b / 10);
    }
  }

  function DigitValue(c: char): int {
    c as int - '0' as int
  }

  /** The number that a string of digits stands for. */
  function DecValue(s: string): int {
    if s == "" then 0 else 10 * DecValue(s[..|s| - 1]) + DigitValue(s[|s| - 1])
  }

  lemma {:induction false} DecReads(n: nat)
    ensures DecValue(Dec(n)) == n
    decreases n
  {
    var s := Dec(n);
    if n < 10 {
      assert s[..|s| - 1] == "";
    } else {
      DecReads(n / 10);
      assert s[..|s| - 1] == Dec(n / 10);
    }
  }

  /** base + "%d-%d". */
  function ContainerName(base: string, concurrentIdx: nat, idx: nat): string {
    base + (Dec(concurrentIdx) + "-" + Dec(idx))
  }

  lemma FirstDash(n: nat, rest: string)
    ensures var s := Dec(n) + "-" + rest;
      s[|Dec(n)|] == '-' && forall i :: 0 <= i < |Dec(n)| ==> s[i] != '-'
  {
    DecDigits(n);
  }

  /** The name of a key container reads as that of the main container, the number of its task, a dash
      and the index of its key. */
  lemma ContainerNameReads(base: string, ci: nat, idx: nat) returns (dash: nat)
    ensures var s := ContainerName(base, ci, idx);
      && |base| < dash < |s| - 1 && s[..|base|] == base && s[dash] == '-'
      && DecValue(s[|base|..dash]) == ci && DecValue(s[dash + 1..]) == idx
      && forall i :: |base| <= i < |s| && i != dash ==> '0' <= s[i] <= '9'
  {
    var s := ContainerName(base, ci, idx);
    dash := |base| + |Dec(ci)|;
    DecReads(ci);
    DecReads(idx);
    DecDigits(ci);
    DecDigits(idx);
    assert s[|base|..dash] == Dec(ci) && s[dash + 1..] == Dec(idx);
  }

  /** The printed name determines both numbers. */
  lemma ContainerNameInjective(base: string, ci: nat, idx: nat, ci': nat, idx': nat)
    requires ContainerName(base, ci, idx) == ContainerName(base, ci', idx')
    ensures ci == ci' && idx == idx'
  {
    var a, b, a', b' := Dec(ci), Dec(idx), Dec(ci'), Dec(idx');
    var s, s' := a + "-" + b, a' + "-" + b';
    assert ContainerName(base, ci, idx)[|base|..] == s;
    assert ContainerName(base, ci', idx')[|base|..] == s';
    FirstDash(ci, b);
    FirstDash(ci', b');
    assert |a| == |a'|;
    assert a == s[..|a|] && a' == s'[..|a'|];
    assert b == s[|a| + 1..] && b' == s'[|a'| + 1..];
    DecInjective(ci, ci');
    DecInjective(idx, idx');
  }

  /** No key container carries the name of the main container it was copied from. */
  lemma ContainerNameFresh(base: string, ci: nat, idx: nat)
    ensures ContainerName(base, ci, idx) != base
  {
    assert |ContainerName(base, ci, idx)| > |base|;
  }

  /** filepath.Join(dir, containerName, file) for clean elements. */
  function LocalPath(dir: string, containerName: string, file: string): string {
    dir + "/" + containerName + "/" + file
  }

  /** Different containers copy an artifact to different places below the artifact's directory. */
  lemma LocalPathInjective(dir: string, name: string, name': string, file: string)
    requires LocalPath(dir, name, file) == LocalPath(dir, name', file)
    ensures name == name'
  {
    var p, p' := LocalPath(dir, name, file), LocalPath(dir, name', file);
    assert |p| == |p'|;
    assert p[|dir| + 1..|dir| + 1 + |name|] == name;
    assert p'[|dir| + 1..|dir| + 1 + |name'|] == name';
  }
}
