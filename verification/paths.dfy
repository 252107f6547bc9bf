/** File-system paths as strings, and the two-argument `os.path.join` of POSIX Python. */
module Paths {

  type Path = string

  predicate StartsWith(s: string, prefix: string) {
    |prefix| <= |s| && s[..|prefix|] == prefix
  }

  /** `posixpath.join(a, b)`: an absolute `b` replaces `a`; otherwise a separator is put
      between the two unless `a` is empty or already ends with one. */
  function Join(a: Path, b: Path): (r: Path)
    ensures !StartsWith(b, "/") ==> |b| <= |r| && r[|r| - |b|..] == b
    ensures StartsWith(b, "/") ==> r == b
  {
    if |b| > 0 && b[0] == '/' then b
    else if a == "" || a[|a| - 1] == '/' then a + b
    else a + "/" + b
  }

  /** Joining one directory with two different relative names gives two different paths. */
  lemma JoinInjective(a: Path, b1: Path, b2: Path)
    requires !StartsWith(b1, "/") && !StartsWith(b2, "/")
    ensures Join(a, b1) == Join(a, b2) <==> b1 == b2
  {
  }
}
