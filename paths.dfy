/**
 * The path helpers the Nudge workflow and the notebook trackers use
 * (`PathExt.dirname`, `basename`, `extname`, `join`, Node's `path.join`),
 * on '/'-separated paths relative to the server root.
 */
module Paths {
  import opened Common

  /** Index of the last occurrence of `c` in `s`. */
  function LastIndexOf(s: string, c: char): (r: Option<nat>)
    ensures r.Some? ==> r.value < |s| && s[r.value] == c
    ensures r.Some? ==> forall k :: r.value < k < |s| ==> s[k] != c
    ensures r.None? ==> forall k :: 0 <= k < |s| ==> s[k] != c
  {
    if |s| == 0 then None
    else if s[|s| - 1] == c then Some(|s| - 1)
    else LastIndexOf(s[..|s| - 1], c)
  }

  /** `dirname`: everything before the last '/', or "" when there is none. */
  function Dirname(p: string): string
  {
    match LastIndexOf(p, '/')
    case None => ""
    case Some(i) => p[..i]
  }

  /** `basename`: everything after the last '/'. */
  function Basename(p: string): (b: string)
    ensures '/' !in b
  {
    match LastIndexOf(p, '/')
    case None => p
    case Some(i) => p[i + 1..]
  }

  /**
   * `basename(p, extname(p))`: the base name without its extension. The
   * extension starts at the last '.' of the base name, unless that '.' is
   * its first character (a dot file has no extension).
   */
  function Stem(p: string): (s: string)
    ensures '/' !in s
  {
    var b := Basename(p);
    match LastIndexOf(b, '.')
    case None => b
    case Some(j) => if j == 0 then b else b[..j]
  }

  /** `join(a, b)`: `b` alone when `a` is empty, otherwise the two with one '/' between. */
  function Join(a: string, b: string): string
  {
    if a == "" then b else a + "/" + b
  }

  /** `${basename(nb, extname(nb))}.mlx`: the MLX file name derived from a notebook path. */
  function MlxFileName(nb: string): (name: string)
    ensures EndsWith(name, ".mlx") && '/' !in name
  {
    Stem(nb) + ".mlx"
  }

  /** The default conversion target: the MLX file name in the notebook's directory. */
  function DefaultMlxPath(nb: string): string
  {
    Join(Dirname(nb), MlxFileName(nb))
  }

  /** A suffix free of `c` does not move the last occurrence of `c`. */
  lemma {:induction false} LastIndexOfAppend(a: string, b: string, c: char)
    requires c !in b
    ensures LastIndexOf(a + b, c) == LastIndexOf(a, c)
  {
    if b != [] {
      var ab := a + b;
      assert ab[|ab| - 1] == b[|b| - 1];
      assert ab[..|ab| - 1] == a + b[..|b| - 1];
      LastIndexOfAppend(a, b[..|b| - 1], c);
    } else {
      assert a + b == a;
    }
  }

  /** Joining a directory with a name free of '/' splits back into that directory and name. */
  lemma JoinSplits(d: string, f: string)
    requires '/' !in f
    ensures Dirname(Join(d, f)) == d && Basename(Join(d, f)) == f
  {
    if d == "" {
      assert LastIndexOf(f, '/') == None;
    } else {
      LastIndexOfAppend(d + "/", f, '/');
      assert (d + "/" + f) == (d + "/") + f;
      assert LastIndexOf(d + "/", '/') == Some(|d|);
      assert (d + "/" + f)[..|d|] == d;
      assert (d + "/" + f)[|d| + 1..] == f;
    }
  }

  /** The default MLX target lies in the notebook's own directory and is named after its stem. */
  lemma DefaultMlxPathSameDirectory(nb: string)
    ensures Dirname(DefaultMlxPath(nb)) == Dirname(nb)
    ensures Basename(DefaultMlxPath(nb)) == Stem(nb) + ".mlx"
    ensures EndsWith(DefaultMlxPath(nb), ".mlx")
  {
    JoinSplits(Dirname(nb), MlxFileName(nb));
    if Dirname(nb) != "" {
      EndsWithPrefixed(Dirname(nb) + "/", MlxFileName(nb), ".mlx");
      assert Join(Dirname(nb), MlxFileName(nb)) == (Dirname(nb) + "/") + MlxFileName(nb);
    }
  }

  /** For `d/s.ipynb` the default target is `d/s.mlx`: only the extension changes. */
  lemma DefaultMlxPathOfIpynb(d: string, s: string)
    requires s != "" && '/' !in s
    ensures DefaultMlxPath(Join(d, s + ".ipynb")) == Join(d, s + ".mlx")
  {
    var f := s + ".ipynb";
    assert '/' !in f by {
      assert forall k :: 0 <= k < |f| ==> f[k] == if k < |s| then s[k] else ".ipynb"[k - |s|];
    }
    JoinSplits(d, f);
    var nb := Join(d, f);
    assert Basename(nb) == f;
    LastIndexOfAppend(s + ".", "ipynb", '.');
    assert f == (s + ".") + "ipynb";
    assert LastIndexOf(s + ".", '.') == Some(|s|);
    assert LastIndexOf(f, '.') == Some(|s|);
    assert f[..|s|] == s;
    assert Stem(nb) == s;
  }
}
