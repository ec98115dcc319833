/**
 * The three operations of Node's `path` module the handlers use, for
 * POSIX-style paths with `/` as the only separator and no normalisation.
 */
module Paths {
  import opened Wrappers

  /** Index of the last separator in `p`, if there is one. */
  function LastSep(p: string): (r: Option<nat>)
    ensures r.None? <==> '/' !in p
    ensures r.Some? ==> r.value < |p| && p[r.value] == '/' && '/' !in p[r.value + 1..]
  {
    if |p| == 0 then None
    else if p[|p| - 1] == '/' then Some(|p| - 1)
    else
      assert p == p[..|p| - 1] + [p[|p| - 1]];
      LastSep(p[..|p| - 1])
  }

  /** `path.dirname(p)`: everything before the last separator; `"/"` for a
      path directly under the root and `"."` for a bare name. */
  function Dirname(p: string): (r: string)
    ensures '/' !in p ==> r == "."
    ensures r != ""
  {
    match LastSep(p)
    case None => "."
    case Some(i) => if i == 0 then "/" else p[..i]
  }

  /** `path.basename(p)`: everything after the last separator. */
  function Basename(p: string): (r: string)
    ensures '/' !in r
    ensures |r| <= |p| && r == p[|p| - |r|..]
    ensures '/' !in p ==> r == p
  {
    match LastSep(p)
    case None => p
    case Some(i) => p[i + 1..]
  }

  /** `path.join(dir, name)`. Joining the empty name gives the directory
      itself, the one normalisation rule the handlers rely on. */
  function Join(dir: string, name: string): (r: string)
    ensures name == "" ==> r == dir
    ensures name != "" ==> |name| <= |r| && r[|r| - |name|..] == name
    ensures name != "" && dir != "" ==>
      r[..|r| - |name|] == if dir[|dir| - 1] == '/' then dir else dir + "/"
  {
    if name == "" then dir
    else if dir == "" then name
    else if dir[|dir| - 1] == '/' then dir + name
    else dir + "/" + name
  }

  /** A name is a single path component. */
  predicate IsName(name: string)
  {
    name != "" && '/' !in name
  }

  /** A normalised directory: never empty and, except for the root,
      without a trailing separator. */
  predicate IsDir(dir: string)
  {
    dir != "" && (dir == "/" || dir[|dir| - 1] != '/')
  }

  /** Appending separator-free characters after a separator leaves that
      separator the last one. */
  lemma {:induction false} LastSepAfter(prefix: string, name: string)
    requires |prefix| > 0 && prefix[|prefix| - 1] == '/'
    requires '/' !in name
    ensures LastSep(prefix + name) == Some(|prefix| - 1)
  {
    if name != [] {
      var p := prefix + name;
      assert p[|p| - 1] == name[|name| - 1];
      assert p[..|p| - 1] == prefix + name[..|name| - 1];
      LastSepAfter(prefix, name[..|name| - 1]);
    } else {
      assert prefix + name == prefix;
    }
  }

  /** A path with a separator is its directory, a separator and its base
      name; the separator is not repeated when the directory is the root. */
  lemma SplitPath(p: string)
    requires '/' in p
    ensures p == Dirname(p) + "/" + Basename(p) || (Dirname(p) == "/" && p == "/" + Basename(p))
  {
    var i := LastSep(p).value;
    assert p == p[..i] + "/" + p[i + 1..];
    if i == 0 {
      assert p == "/" + p[1..];
    }
  }

  /** Splitting a joined path gives back the directory and the name it was
      joined from: the navigation handlers rely on this to find the
      directory and the entry name of the file they opened last. */
  lemma JoinSplit(dir: string, name: string)
    requires IsDir(dir) && IsName(name)
    ensures Dirname(Join(dir, name)) == dir
    ensures Basename(Join(dir, name)) == name
  {
    var prefix := if dir == "/" then dir else dir + "/";
    assert Join(dir, name) == prefix + name;
    LastSepAfter(prefix, name);
    assert dir != "/" ==> (prefix + name)[..|prefix| - 1] == dir;
    assert (prefix + name)[|prefix|..] == name;
  }
}
