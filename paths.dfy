/**
 * The fragment of Python's `posixpath` (and `str(int)`) the repository manager
 * relies on: `join`, `basename`, `dirname`, `split`, `str.strip('/')`,
 * `relpath` below a storage root and `normpath` of paths that `os.walk('.')` yields.
 */
module Paths {
  import opened Wrappers

  predicate EndsWithSlash(p: string) {
    |p| > 0 && p[|p| - 1] == '/'
  }

  /** A single path component: what a listing returns and what `join` appends. */
  predicate Plain(n: string) {
    n != "" && n != "." && n != ".." && '/' !in n
  }

  /** Index just past the last '/' of `p`, or 0 when `p` has none: where the final component starts. */
  function TailStart(p: string): (i: nat)
    ensures i <= |p|
    ensures i > 0 ==> p[i - 1] == '/'
    ensures forall k :: i <= k < |p| ==> p[k] != '/'
  {
    if p == [] then 0
    else if p[|p| - 1] == '/' then |p|
    else TailStart(p[..|p| - 1])
  }

  /** `os.path.basename`. */
  function Basename(p: string): string {
    p[TailStart(p)..]
  }

  predicate AllSlashes(s: string) {
    forall k :: 0 <= k < |s| ==> s[k] == '/'
  }

  /** `s.rstrip('/')`. */
  function RStripSlashes(s: string): string {
    if s != [] && s[|s| - 1] == '/' then RStripSlashes(s[..|s| - 1]) else s
  }

  /** `s.lstrip('/')`. */
  function LStripSlashes(s: string): string {
    if s != [] && s[0] == '/' then LStripSlashes(s[1..]) else s
  }

  /** `s.strip('/')`. */
  function StripSlashes(s: string): string {
    RStripSlashes(LStripSlashes(s))
  }

  /** `os.path.dirname`: everything before the final component, trailing slashes dropped unless only slashes remain. */
  function Dirname(p: string): string {
    var head := p[..TailStart(p)];
    if head != [] && !AllSlashes(head) then RStripSlashes(head) else head
  }

  /** `os.path.join(a, b)` for two arguments. */
  function Join(a: string, b: string): string {
    if |b| > 0 && b[0] == '/' then b
    else if a == [] || EndsWithSlash(a) then a + b
    else a + "/" + b
  }

  /**
   * `os.path.relpath(p, start)` where the model covers it: `p` one plain
   * component below `start` (an empty `start` stands for the working
   * directory, against which a bare component is itself). Every other case
   * (`..` steps, paths that need normalising, absolute against relative)
   * depends on the working directory and is outside the model: None.
   */
  function RelPath(p: string, start: string): Option<string> {
    var n := Basename(p);
    if Plain(n) && Join(start, n) == p then Some(n) else None
  }

  /** `os.path.normpath` of a path that `os.walk('.')` yields: the leading "./" goes. */
  function NormWalked(p: string): (r: string)
    ensures r == p || "./" + r == p
    ensures |p| >= 2 && p[..2] == "./" ==> "./" + r == p
  {
    if |p| >= 2 && p[..2] == "./" then p[2..] else p
  }

  function DigitChar(d: nat): char
    requires d < 10
  {
    "0123456789"[d]
  }

  function NatToString(n: nat): string {
    if n < 10 then [DigitChar(n)] else NatToString(n / 10) + [DigitChar(n % 10)]
  }

  /** `str(i)` for an int. */
  function IntToString(i: int): string {
    if i < 0 then "-" + NatToString(-i) else NatToString(i)
  }

  lemma {:induction false} TailStartOfAppend(x: string, n: string)
    requires x == [] || EndsWithSlash(x)
    requires '/' !in n
    ensures TailStart(x + n) == |x|
    decreases |n|
  {
    if n == [] {
      assert x + n == x;
    } else {
      var xn := x + n;
      assert xn[|xn| - 1] == n[|n| - 1];
      assert xn[..|xn| - 1] == x + n[..|n| - 1];
      TailStartOfAppend(x, n[..|n| - 1]);
    }
  }

  /** Joining a component to any directory and taking the basename gives the component back. */
  lemma BasenameOfJoin(a: string, n: string)
    requires '/' !in n
    ensures Basename(Join(a, n)) == n
  {
    if a == [] || EndsWithSlash(a) {
      TailStartOfAppend(a, n);
    } else {
      assert (a + "/") [|a + "/"| - 1] == '/';
      assert a + "/" + n == (a + "/") + n;
      TailStartOfAppend(a + "/", n);
    }
  }

  /** A basename never holds a '/'. */
  lemma BasenameHasNoSlash(p: string)
    ensures '/' !in Basename(p)
  {
  }

  /** The basename is the final stretch of `p` without a '/', empty exactly when `p` is empty or ends with '/'. */
  lemma BasenameParts(p: string)
    ensures var r := Basename(p); '/' !in r && |r| <= |p| && r == p[|p| - |r|..]
    ensures Basename(p) == [] <==> p == [] || EndsWithSlash(p)
  {
  }

  /** `relpath(join(start, n), start) == n` for a plain component `n`. */
  lemma RelPathOfJoin(start: string, n: string)
    requires Plain(n)
    ensures RelPath(Join(start, n), start) == Some(n)
  {
    BasenameOfJoin(start, n);
  }

  /** `str(n)` starts with a digit. */
  lemma {:induction false} NatToStringStartsWithDigit(n: nat)
    ensures |NatToString(n)| > 0 && NatToString(n)[0] in "0123456789"
  {
    if n >= 10 {
      NatToStringStartsWithDigit(n / 10);
    }
  }

  /**
   * `join(a, b)` ends with `b`; an absolute `b` replaces `a`, and a relative
   * one is appended to `a` with exactly one '/' between a non-empty `a` and `b`.
   */
  lemma JoinParts(a: string, b: string)
    ensures var r := Join(a, b); |b| <= |r| && r[|r| - |b|..] == b
    ensures |b| > 0 && b[0] == '/' ==> Join(a, b) == b
    ensures var r := Join(a, b); (|b| == 0 || b[0] != '/') ==> |a| <= |r| && r[..|a|] == a
    ensures var r := Join(a, b); (|b| == 0 || b[0] != '/') && a != [] ==> |r| == |a| + |b| + (if EndsWithSlash(a) then 0 else 1)
    ensures var r := Join(a, b); (|b| == 0 || b[0] != '/') && a != [] ==> r[|r| - |b| - 1] == '/'
  {
  }

  /** Joining one directory to two different relative names gives two different paths. */
  lemma JoinInjective(a: string, x: string, y: string)
    requires |x| > 0 && x[0] != '/' && |y| > 0 && y[0] != '/'
    requires x != y
    ensures Join(a, x) != Join(a, y)
  {
    var pre := if a == [] || EndsWithSlash(a) then a else a + "/";
    assert Join(a, x) == pre + x && Join(a, y) == pre + y;
    assert (pre + x)[|pre|..] == x && (pre + y)[|pre|..] == y;
  }
}
