/** A '/'-only reading of the Node `path` functions the engine calls. No
    normalisation of `.`/`..`, no trailing-slash handling, and `path.resolve` is the
    identity (paths are taken as already absolute). */
module Paths {

  /** Index of the last `c` in `s`, or -1. */
  function LastIndexOf(s: string, c: char): (r: int)
    ensures -1 <= r < |s|
    ensures r >= 0 ==> s[r] == c && c !in s[r + 1..]
    ensures r == -1 ==> c !in s
  {
    if s == [] then -1
    else if s[|s| - 1] == c then |s| - 1
    else
      var r := LastIndexOf(s[..|s| - 1], c);
      assert s == s[..|s| - 1] + [s[|s| - 1]];
      r
  }

  /** `path.basename(p)`: what follows the last '/'. */
  function Basename(p: string): (b: string)
    ensures '/' !in b
    ensures |b| <= |p| && p[|p| - |b|..] == b
  {
    p[LastIndexOf(p, '/') + 1..]
  }

  /** `path.dirname(p)`: what precedes the last '/', "." when there is none. */
  function Dirname(p: string): (d: string)
  {
    var k := LastIndexOf(p, '/');
    if k == -1 then "." else if k == 0 then "/" else p[..k]
  }

  /** `path.extname(p)`: the basename's last '.' and what follows it, or "" when the
      basename has no '.' past its first character. */
  function Extname(p: string): (e: string)
    ensures e == "" || (e[0] == '.' && '/' !in e)
  {
    var b := Basename(p);
    var k := LastIndexOf(b, '.');
    if k <= 0 then "" else b[k..]
  }

  /** `path.join(a, b)`. */
  function Join(a: string, b: string): string
  {
    if a == "" then b else if b == "" then a else a + "/" + b
  }

  /** `path.relative(from, to)`: the part of `to` below `from`; `to` itself when it
      does not lie below `from`. */
  function Relative(from: string, to: string): string
  {
    if to == from then ""
    else if |from| < |to| && to[..|from| + 1] == from + "/" then to[|from| + 1..]
    else to
  }

  /** Joining below a directory and taking the path relative to it again is the
      identity. */
  lemma RelativeJoin(from: string, p: string)
    requires from != ""
    ensures Relative(from, Join(from, p)) == p
  {
    if p != "" {
      var j := from + "/" + p;
      assert j[..|from| + 1] == from + "/";
      assert j[|from| + 1..] == p;
    }
  }

  /** Joining is associative when no part is empty. */
  lemma JoinAssociative(a: string, b: string, c: string)
    requires a != "" && b != "" && c != ""
    ensures Join(Join(a, b), c) == Join(a, Join(b, c))
  {
  }
}
