/** The `os.path` operations the converter uses, on the Windows host it runs
    on, restricted to the paths it builds: a directory joined with names that
    hold no separator. Only the backslash is a separator here; Windows
    `os.path` also splits on `/` and treats drive letters, roots and repeated
    separators specially, none of which occur in those paths. */
module WinPath {
  import opened Wire

  const Sep: char := '\\'

  /** Index of the last separator in `p`, if any. */
  function LastSep(p: string): (r: Option<nat>)
    ensures r.Some? ==> r.value < |p| && p[r.value] == Sep && Sep !in p[r.value + 1..]
    ensures r.None? ==> Sep !in p
  {
    if p == [] then None
    else if p[|p| - 1] == Sep then Some(|p| - 1)
    else
      var r := LastSep(p[..|p| - 1]);
      assert r.Some? ==> p[r.value + 1..] == p[..|p| - 1][r.value + 1..] + [p[|p| - 1]];
      assert r.None? ==> p == p[..|p| - 1] + [p[|p| - 1]];
      r
  }

  /** `os.path.join(a, b)` for a relative `b`: `a`, then one separator
      unless `a` is empty or already ends in one, then `b`. */
  function Join(a: string, b: string): (r: string)
    ensures |a| + |b| <= |r| <= |a| + |b| + 1
    ensures r[..|a|] == a && r[|r| - |b|..] == b
    ensures a != [] ==> r[|r| - |b| - 1] == Sep
    ensures |r| == |a| + |b| <==> (a == [] || a[|a| - 1] == Sep)
  {
    if a == [] || a[|a| - 1] == Sep then a + b else a + [Sep] + b
  }

  /** `os.path.dirname(p)`: everything before the last separator. */
  function Dirname(p: string): (r: string)
    ensures |r| <= |p| && r == p[..|r|]
    ensures Sep !in p ==> r == []
    ensures Sep in p ==> |r| < |p| && p[|r|] == Sep && Sep !in p[|r| + 1..]
  {
    match LastSep(p)
    case None => []
    case Some(i) => p[..i]
  }

  /** `os.path.basename(p)`: everything after the last separator. This is
      also `p.split(os.path.sep)[-1]`, the form the status view uses. */
  function Basename(p: string): (r: string)
    ensures Sep !in r
    ensures |r| <= |p| && r == p[|p| - |r|..]
    ensures |r| < |p| ==> p[|p| - |r| - 1] == Sep
  {
    match LastSep(p)
    case None => p
    case Some(i) => p[i + 1..]
  }

  /** Joining a directory and a separator-free name, then splitting the result,
      gives the two parts back. */
  lemma {:induction false} JoinSplits(dir: string, name: string)
    requires dir != [] && dir[|dir| - 1] != Sep
    requires Sep !in name
    ensures Dirname(Join(dir, name)) == dir
    ensures Basename(Join(dir, name)) == name
  {
    var p := Join(dir, name);
    assert p == dir + [Sep] + name;
    assert p[|dir|] == Sep;
    assert p[|dir| + 1..] == name;
    assert p[..|dir|] == dir;
  }
}
