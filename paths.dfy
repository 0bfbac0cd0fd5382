/**
 * The few `path` operations the plugin uses, on already-normalised absolute paths:
 * `join` is concatenation around the separator, `resolve` of an absolute path is
 * that path, and `dirname` cuts at the last separator.
 */
module Paths {
  import opened Common

  /** `path.sep` (and the separator of `path.posix`). */
  const Sep: char := '/'

  /** `path.join(a, b)` for a directory `a` and a relative segment `b`. */
  function Join(a: string, b: string): (p: string)
    ensures |p| == |a| + 1 + |b|
  {
    a + [Sep] + b
  }

  /** The position of the last separator in `p`, if there is one. */
  function LastSep(p: string): (r: Option<nat>)
    ensures r.Some? ==> r.value < |p| && p[r.value] == Sep && Sep !in p[r.value + 1..]
    ensures r.None? ==> Sep !in p
  {
    if |p| == 0 then None
    else if p[|p| - 1] == Sep then Some(|p| - 1)
    else
      var r := LastSep(p[..|p| - 1]);
      assert p[..|p| - 1] + [p[|p| - 1]] == p;
      r
  }

  /** `path.dirname(p)`: everything before the last separator; `.` without one, and the root for a top-level name. */
  function Dirname(p: string): string
  {
    match LastSep(p)
    case None => "."
    case Some(k) => if k == 0 then [Sep] else p[..k]
  }

  /**
   * `path.join(dir, id)` for a relative module id: a leading `./` names `dir` itself
   * and disappears when the join normalises the path.
   */
  function JoinRelative(dir: string, id: string): string
  {
    if StartsWith(id, "./") then Join(dir, id[2..]) else Join(dir, id)
  }

  /** `join(a, b)` ends with the separator and `b`. */
  lemma JoinEndsWith(a: string, b: string)
    ensures EndsWith(Join(a, b), [Sep] + b)
  {
    assert Join(a, b) == a + ([Sep] + b);
  }

  /** The directory of a file joined under a non-empty directory is that directory. */
  lemma DirnameJoin(a: string, b: string)
    requires |a| > 0 && Sep !in b
    ensures Dirname(Join(a, b)) == a
  {
    var p := Join(a, b);
    LastSepOfJoin(a, b);
    assert p[..|a|] == a;
  }

  /** The last separator of `a/b`, with no separator in `b`, is the one the join inserted. */
  lemma {:induction false} LastSepOfJoin(a: string, b: string)
    requires Sep !in b
    ensures LastSep(Join(a, b)) == Some(|a|)
    decreases |b|
  {
    var p := Join(a, b);
    if |b| > 0 {
      assert p[..|p| - 1] == Join(a, b[..|b| - 1]);
      assert b[|b| - 1] in b;
      LastSepOfJoin(a, b[..|b| - 1]);
    }
  }
}
