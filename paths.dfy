/** `os.path.join` of two POSIX path components. */
module Paths {

  /** `posixpath.join(a, b)`: an absolute `b` replaces `a`; otherwise a '/'
      is inserted unless `a` is empty or already ends with one. */
  function Join(a: string, b: string): (r: string)
    ensures |b| > 0 && b[0] == '/' ==> r == b
    ensures !(|b| > 0 && b[0] == '/') ==> a <= r && |b| <= |r| && r[|r| - |b|..] == b
    ensures !(|b| > 0 && b[0] == '/') && a != [] && a[|a| - 1] != '/' ==> r == a + "/" + b
  {
    if |b| > 0 && b[0] == '/' then b
    else if a == [] || a[|a| - 1] == '/' then a + b
    else a + "/" + b
  }
}
