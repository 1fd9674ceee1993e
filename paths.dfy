/** The two `os.path` functions the downloader uses, as POSIX Python defines them. */
module Paths {

  /** Index of the last '/' in `p`, or -1 when there is none (`p.rfind('/')`). */
  function LastSlash(p: string): (i: int)
    ensures -1 <= i < |p|
    ensures i >= 0 ==> p[i] == '/'
    ensures forall j :: i < j < |p| ==> p[j] != '/'
    decreases |p|
  {
    if p == [] then -1
    else if p[|p| - 1] == '/' then |p| - 1
    else LastSlash(p[..|p| - 1])
  }

  /** `os.path.basename(p)`: the final path segment; for a URL, whatever follows its
      last '/' (a query string included). */
  function Basename(p: string): (b: string)
    ensures !IsAbsolute(b)
  {
    p[LastSlash(p) + 1..]
  }

  /** The basename is the part of `p` after its last '/', and holds no '/' itself. */
  lemma BasenameShape(p: string)
    ensures var b := Basename(p);
      && (forall k :: 0 <= k < |b| ==> b[k] != '/')
      && |b| <= |p| && p[|p| - |b|..] == b
      && (|b| < |p| ==> p[|p| - |b| - 1] == '/')
  {
  }

  predicate IsAbsolute(p: string) {
    p != [] && p[0] == '/'
  }

  /** `os.path.join(a, b)`: an absolute `b` replaces `a`; otherwise `b` is appended after
      exactly one separator, or none when `a` is empty or already ends with '/'. */
  function Join(a: string, b: string): (r: string)
    ensures IsAbsolute(b) ==> r == b
    ensures !IsAbsolute(b) ==> r == a + b || r == a + "/" + b
    ensures !IsAbsolute(b) && a != [] && a[|a| - 1] != '/' ==> r == a + "/" + b
    ensures !IsAbsolute(b) && (a == [] || a[|a| - 1] == '/') ==> r == a + b
  {
    if IsAbsolute(b) then b
    else if a == [] || a[|a| - 1] == '/' then a + b
    else a + "/" + b
  }

  /** Whatever `os.path.join(a, b)` gives ends with `b`. */
  lemma JoinEndsWith(a: string, b: string)
    ensures var r := Join(a, b); |b| <= |r| && r[|r| - |b|..] == b
  {
    var r := Join(a, b);
    if IsAbsolute(b) {
      assert r[0..] == b;
    } else if a == [] || a[|a| - 1] == '/' {
      assert r == a + b && (a + b)[|a|..] == b;
    } else {
      var a' := a + "/";
      assert r == a' + b && (a' + b)[|a'|..] == b;
    }
  }

  /** The basename of `dir/name`, for a name without '/', is that name. */
  lemma BasenameAfterSlash(dir: string, name: string)
    requires forall k :: 0 <= k < |name| ==> name[k] != '/'
    ensures Basename(dir + "/" + name) == name
  {
    var p := dir + "/" + name;
    BasenameShape(p);
    assert p[|p| - |name|..] == name;
    assert p[|p| - |name| - 1] == '/';
  }
}
