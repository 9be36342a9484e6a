/**
 * The part of POSIX path handling the playlist plugin relies on:
 * `os.path.dirname`, `os.path.basename` and `os.path.join` with two
 * arguments, as Python's posixpath module computes them on strings.
 */
module PosixPath {

  const Sep := '/'

  /** Index just past the last separator of `p`, or 0 when `p` has none. */
  function LastSepEnd(p: string): (k: nat)
    ensures k <= |p|
    ensures k == 0 || p[k - 1] == Sep
    ensures forall i :: k <= i < |p| ==> p[i] != Sep
  {
    if p == [] then 0
    else if p[|p| - 1] == Sep then |p|
    else LastSepEnd(p[..|p| - 1])
  }

  /** The three properties of LastSepEnd's contract determine it. */
  lemma LastSepEndUnique(p: string, k: nat)
    requires k <= |p|
    requires k == 0 || p[k - 1] == Sep
    requires forall i :: k <= i < |p| ==> p[i] != Sep
    ensures LastSepEnd(p) == k
  {
  }

  predicate AllSeps(s: string) {
    forall i :: 0 <= i < |s| ==> s[i] == Sep
  }

  /** `s.rstrip('/')`. */
  function RStripSeps(s: string): (r: string)
    ensures r <= s
    ensures r == [] || r[|r| - 1] != Sep
    ensures forall i :: |r| <= i < |s| ==> s[i] == Sep
  {
    if s != [] && s[|s| - 1] == Sep then RStripSeps(s[..|s| - 1]) else s
  }

  /**
   * A directory part as dirname produces it: empty, a run of separators
   * only (the root), or a path with no trailing separator.
   */
  predicate Normal(d: string) {
    d == [] || d[|d| - 1] != Sep || AllSeps(d)
  }

  /** `os.path.dirname(p)`: everything up to the last separator, trailing separators removed unless that leaves the root. */
  function DirName(p: string): (d: string)
    ensures d <= p
    ensures Normal(d)
    ensures d == [] <==> Sep !in p
    ensures forall i :: |d| <= i < |p| - |BaseName(p)| ==> p[i] == Sep
  {
    var head := p[..LastSepEnd(p)];
    if head != [] && !AllSeps(head) then RStripSeps(head) else head
  }

  /** `os.path.basename(p)`: everything after the last separator. */
  function BaseName(p: string): (b: string)
    ensures Sep !in b
    ensures |b| <= |p| && p[|p| - |b|..] == b
  {
    p[LastSepEnd(p)..]
  }

  /** `os.path.join(a, b)`. */
  function Join(a: string, b: string): (r: string)
    ensures b != [] && b[0] == Sep ==> r == b
    ensures (b == [] || b[0] != Sep) ==> |r| >= |a| + |b| && r[..|a|] == a && r[|r| - |b|..] == b
  {
    if b != [] && b[0] == Sep then b
    else if a == [] || a[|a| - 1] == Sep then a + b
    else a + [Sep] + b
  }

  /**
   * A file name joined onto a directory part lands in that directory:
   * dirname and basename recover the two halves.
   */
  lemma DirNameOfJoin(d: string, n: string)
    requires Normal(d)
    requires Sep !in n
    ensures DirName(Join(d, n)) == d
    ensures BaseName(Join(d, n)) == n
  {
    if d == [] {
      JoinOntoEmpty(n);
    } else if AllSeps(d) {
      JoinOntoRoot(d, n);
    } else {
      JoinOntoDirectory(d, n);
    }
  }

  lemma JoinOntoEmpty(n: string)
    requires Sep !in n
    ensures DirName(Join([], n)) == [] && BaseName(Join([], n)) == n
  {
    assert Join([], n) == n;
    LastSepEndUnique(n, 0);
    assert n[..0] == [];
  }

  lemma JoinOntoRoot(d: string, n: string)
    requires d != [] && AllSeps(d)
    requires Sep !in n
    ensures DirName(Join(d, n)) == d && BaseName(Join(d, n)) == n
  {
    var j := d + n;
    assert Join(d, n) == j;
    LastSepEndUnique(j, |d|);
    assert j[..|d|] == d;
    assert j[|d|..] == n;
  }

  lemma JoinOntoDirectory(d: string, n: string)
    requires d != [] && d[|d| - 1] != Sep
    requires Sep !in n
    ensures DirName(Join(d, n)) == d && BaseName(Join(d, n)) == n
  {
    var j := d + [Sep] + n;
    assert Join(d, n) == j;
    LastSepEndUnique(j, |d| + 1);
    var head := j[..|d| + 1];
    assert head == d + [Sep];
    assert !AllSeps(head) by {
      assert head[|d| - 1] != Sep;
    }
    assert head[..|head| - 1] == d;
    assert RStripSeps(head) == d;
    assert j[|d| + 1..] == n;
  }

  /** No separator directly follows another one. */
  predicate NoDoubledSeps(p: string) {
    forall i :: 0 < i < |p| ==> p[i - 1] != Sep || p[i] != Sep
  }

  /** Joining dirname and basename again gives back the path, when its separators are single. */
  lemma JoinDirBase(p: string)
    requires NoDoubledSeps(p)
    ensures Join(DirName(p), BaseName(p)) == p
  {
    var k := LastSepEnd(p);
    var head := p[..k];
    var b := BaseName(p);
    assert b == p[k..];
    if k == 0 {
      assert DirName(p) == [];
    } else if AllSeps(head) {
      assert DirName(p) == head;
      assert head + b == p;
    } else {
      // The separator at k - 1 is single, so stripping removes exactly it.
      var i :| 0 <= i < k && p[i] != Sep;
      assert i < k - 1;
      assert p[k - 2] != Sep;
      assert head[..|head| - 1] == p[..k - 1];
      assert RStripSeps(p[..k - 1]) == p[..k - 1];
      assert DirName(p) == p[..k - 1];
      assert p[..k - 1] + [Sep] + p[k..] == p;
    }
  }
}
