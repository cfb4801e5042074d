/** The two `os.path` functions the adapters use, as Python's posixpath defines them. */
module Paths {
  import opened Text

  /** `os.path.basename(p)`: the last component of `p`, the empty string when `p` ends with '/'. */
  function BaseName(p: string): (r: string)
    ensures '/' !in r
    ensures EndsWith(p, r)
    ensures |r| < |p| ==> p[|p| - |r| - 1] == '/'
  {
    AfterLast(p, '/')
  }

  /** `os.path.join(a, b)` for two components: an absolute `b` replaces `a`, otherwise one '/' separates them. */
  function Join(a: string, b: string): (r: string)
    ensures StartsWith(b, "/") ==> r == b
    ensures EndsWith(r, b)
  {
    if StartsWith(b, "/") then b
    else if a == "" || EndsWith(a, "/") then a + b
    else a + "/" + b
  }

  /** Directory components in front of a path do not change its base name. */
  lemma BaseNameDropsDirectories(dir: string, p: string)
    ensures BaseName(dir + "/" + p) == BaseName(p)
  {
    AfterLastPastSeparator(dir, '/', p);
  }

  /** A relative component is appended to a directory without repeating its trailing '/'. */
  lemma JoinRelative(a: string, b: string)
    requires !StartsWith(b, "/")
    ensures EndsWith(a, "/") ==> Join(a, b) == a + b
    ensures a != "" && !EndsWith(a, "/") ==> Join(a, b) == a + "/" + b
  {
  }
}
