/**
 * The small pieces of Python's standard library that master.py leans on for
 * file names: `os.path.join`, `os.path.basename`, and indexing the result of
 * `glob.glob` (`glob.glob(pattern)[0]`), with and without catching IndexError.
 */
module Paths {
  import opened Wrappers

  /**
   * The Python exceptions the script can raise by itself: IndexError from
   * `glob.glob(pattern)[0]` when nothing matched, and IOError from `open`
   * on a file that is not there.
   */
  datatype PyError = IndexError(pattern: string) | IOError(path: string)

  predicate IsAbsolute(path: string) {
    |path| > 0 && path[0] == '/'
  }

  /**
   * `os.path.join(a, b)` on POSIX: an absolute `b` replaces `a`; otherwise
   * `b` is appended to `a`, with a '/' in between unless `a` is empty or
   * already ends with one.
   */
  function Join(a: string, b: string): string {
    if IsAbsolute(b) then b
    else if a == "" || a[|a| - 1] == '/' then a + b
    else a + "/" + b
  }

  /**
   * The result of Join ends with its second part; an absolute second part
   * stands alone, and otherwise the first part comes before it, followed by
   * a '/' separator whenever anything precedes the second part.
   */
  lemma JoinAppends(a: string, b: string)
    ensures var r := Join(a, b);
      && |b| <= |r| && r[|r| - |b|..] == b
      && (IsAbsolute(b) ==> r == b)
      && (!IsAbsolute(b) ==> r[..|r| - |b|] == a || r[..|r| - |b|] == a + "/")
      && (!IsAbsolute(b) && |r| > |b| ==> r[|r| - |b| - 1] == '/')
      && (!IsAbsolute(b) ==> (r[..|r| - |b|] == a + "/" <==> a != "" && a[|a| - 1] != '/'))
  {
  }

  /**
   * `os.path.basename(p)`: what follows the last '/' of `p` (all of `p` when
   * it has none).
   */
  function Basename(p: string): string
    decreases |p|
  {
    if p == [] then []
    else if p[|p| - 1] == '/' then []
    else Basename(p[..|p| - 1]) + [p[|p| - 1]]
  }

  /**
   * Basename is the longest suffix without '/': it contains no '/', it ends
   * the path, and the character before it, if any, is a '/'.
   */
  lemma {:induction false} BasenameIsLastComponent(p: string)
    ensures var b := Basename(p);
      && '/' !in b
      && |b| <= |p| && p[|p| - |b|..] == b
      && (|b| < |p| ==> p[|p| - |b| - 1] == '/')
    decreases |p|
  {
    if p != [] && p[|p| - 1] != '/' {
      var init := p[..|p| - 1];
      var last := p[|p| - 1];
      BasenameIsLastComponent(init);
      var b := Basename(p);
      assert b == Basename(init) + [last];
      assert init + [last] == p;
      assert p[|p| - |b|..] == init[|init| - |b| + 1..] + [last];
    }
  }

  /** A name without '/' placed after a directory prefix is its own basename. */
  lemma {:induction false} BasenameAfterSeparator(prefix: string, name: string)
    requires '/' !in name
    requires prefix != [] ==> prefix[|prefix| - 1] == '/'
    ensures Basename(prefix + name) == name
    decreases |name|
  {
    if name == [] {
      assert prefix + name == prefix;
    } else {
      var init := name[..|name| - 1];
      assert (prefix + name)[..|prefix + name| - 1] == prefix + init;
      BasenameAfterSeparator(prefix, init);
      assert init + [name[|name| - 1]] == name;
    }
  }

  /** `glob.glob(pattern)[0]` given the matches: the first one, or IndexError. */
  function FirstMatch(pattern: string, matches: seq<string>): Result<string, PyError> {
    if matches == [] then Err(IndexError(pattern)) else Ok(matches[0])
  }

  /** `open(path).read()` over the files present: their text, or IOError. */
  function ReadFile(files: map<string, string>, path: string): Result<string, PyError> {
    if path in files then Ok(files[path]) else Err(IOError(path))
  }

  /**
   * The same lookup with IndexError caught and replaced by the empty string,
   * as `status` does.
   */
  function FirstMatchOrEmpty(matches: seq<string>): string {
    if matches == [] then "" else matches[0]
  }

  /** Catching the IndexError of FirstMatch is exactly FirstMatchOrEmpty; it never fails. */
  lemma CaughtLookupIsFirstOrEmpty(pattern: string, matches: seq<string>)
    ensures FirstMatchOrEmpty(matches)
              == match FirstMatch(pattern, matches)
                 case Ok(f) => f
                 case Err(_) => ""
    ensures FirstMatchOrEmpty(matches) in matches || (matches == [] && FirstMatchOrEmpty(matches) == "")
  {
  }
}
