/**
 A file-system path as the file dialogs return it, and the final-name
 extraction the window title uses. Paths are `/`-separated strings; the
 rules follow the standard library's `Path::file_name`: empty and `.`
 components are skipped, and a path that ends in `..` (or has no normal
 component at all) has no file name.
 */
module Paths {
  import opened Wrappers

  datatype Path = Path(text: string)

  /** Position of the last `/` in `s`, if any. */
  function LastSlash(s: string): (r: Option<nat>)
    ensures r.Some? ==> r.value < |s| && s[r.value] == '/' && '/' !in s[r.value + 1..]
    ensures r.None? ==> '/' !in s
  {
    if s == [] then Option.None
    else if s[|s| - 1] == '/' then Some(|s| - 1)
    else
      var r := LastSlash(s[..|s| - 1]);
      assert r.Some? ==> s[r.value + 1..] == s[..|s| - 1][r.value + 1..] + [s[|s| - 1]];
      assert s == s[..|s| - 1] + [s[|s| - 1]];
      r
  }

  /** A component that names a file or directory (not empty, `.` or `..`). */
  predicate IsNormalName(n: string)
  {
    '/' !in n && n != "" && n != "." && n != ".."
  }

  /** The final normal component of a path, or none. */
  function FileNameOf(s: string): (r: Option<string>)
    ensures r.Some? ==> IsNormalName(r.value)
    decreases |s|
  {
    match LastSlash(s)
    case None => if s == "" || s == "." || s == ".." then Option.None else Some(s)
    case Some(i) =>
      var last := s[i + 1..];
      if last == "" || last == "." then FileNameOf(s[..i])
      else if last == ".." then Option.None
      else Some(last)
  }

  function FileName(p: Path): Option<string>
  {
    FileNameOf(p.text)
  }

  /** A bare normal name is its own file name. */
  lemma BareNameIsFileName(n: string)
    requires IsNormalName(n)
    ensures FileNameOf(n) == Some(n)
  {
  }

  /** The last `/` of `dir + "/" + n` is the joining one when `n` has none. */
  lemma {:induction false} LastSlashOfJoin(dir: string, n: string)
    requires '/' !in n
    ensures LastSlash(dir + "/" + n) == Some(|dir|)
  {
    var s := dir + "/" + n;
    if n == [] {
      assert s[|s| - 1] == '/';
    } else {
      var m := n[..|n| - 1];
      assert s[..|s| - 1] == dir + "/" + m;
      assert s[|s| - 1] == n[|n| - 1];
      assert n[|n| - 1] in n;
      assert forall k :: 0 <= k < |m| ==> m[k] == n[k];
      LastSlashOfJoin(dir, m);
    }
  }

  /** Joining a directory and a normal name yields that name back. */
  lemma JoinedNameIsFileName(dir: string, n: string)
    requires IsNormalName(n)
    ensures FileNameOf(dir + "/" + n) == Some(n)
  {
    LastSlashOfJoin(dir, n);
    assert (dir + "/" + n)[|dir| + 1..] == n;
  }

  /** Trailing `/` and `/.` do not change the file name. */
  lemma TrailingSeparatorIgnored(s: string)
    ensures FileNameOf(s + "/") == FileNameOf(s)
    ensures FileNameOf(s + "/.") == FileNameOf(s)
  {
    LastSlashOfJoin(s, "");
    LastSlashOfJoin(s, ".");
    assert (s + "/")[..|s|] == s;
    assert (s + "/.")[..|s|] == s;
    assert (s + "/.")[|s| + 1..] == ".";
  }

  /** A path that ends in `..` has no file name. */
  lemma ParentHasNoFileName(s: string)
    ensures FileNameOf(s + "/..").None?
  {
    LastSlashOfJoin(s, "..");
    assert s + "/.." == s + "/" + "..";
    assert (s + "/..")[|s| + 1..] == "..";
  }
}
