/** The final component of a POSIX path, as `pathlib.Path(p).name` computes it. */
module Paths {

  /** Index of the last '/' in `p`, or -1 when there is none. */
  function LastSlash(p: string): (k: int)
    ensures -1 <= k < |p|
    ensures k >= 0 ==> p[k] == '/'
    ensures forall j :: k < j < |p| ==> p[j] != '/'
  {
    if p == [] then -1
    else if p[|p| - 1] == '/' then |p| - 1
    else LastSlash(p[..|p| - 1])
  }

  /** A component that pathlib keeps: not empty (from "//" or a trailing '/') and not ".". */
  predicate Kept(seg: string) {
    seg != "" && seg != "."
  }

  /**
   * `Path(p).name`: pathlib drops empty and "." components, and `name` is the last
   * component that remains, or "" when none does (for "", ".", "/" and the like).
   */
  function PathName(p: string): (n: string)
    ensures '/' !in n
    ensures n == "" || Kept(n)
    ensures |n| <= |p|
    decreases |p|
  {
    var k := LastSlash(p);
    var seg := p[k + 1..];
    if Kept(seg) then seg
    else if k < 0 then ""
    else PathName(p[..k])
  }

  /** The name of `dir/n` is `n` whenever `n` is a single kept component. */
  lemma NameOfChild(dir: string, n: string)
    requires Kept(n) && '/' !in n
    ensures PathName(dir + "/" + n) == n
  {
    var p := dir + "/" + n;
    assert p[|dir|] == '/';
    assert forall j :: |dir| < j < |p| ==> p[j] == n[j - |dir| - 1];
    assert p[|dir| + 1..] == n;
  }

  /** A trailing '/' does not change the name: `Path("a/b/").name == "b"`. */
  lemma TrailingSlashIgnored(p: string)
    ensures PathName(p + "/") == PathName(p)
  {
  }

  /** A trailing "." component does not change the name: `Path("a/b/.").name == "b"`. */
  lemma TrailingDotIgnored(p: string)
    ensures PathName(p + "/.") == PathName(p)
  {
    var q := p + "/.";
    assert q[|p| + 1] == '.' && q[|p|] == '/';
    assert LastSlash(q[..|q| - 1]) == |p|;
    assert LastSlash(q) == |p|;
    assert q[|p| + 1..] == ".";
    assert q[..|p|] == p;
  }
}
