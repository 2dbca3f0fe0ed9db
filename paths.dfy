/**
 * The part of Rust's `std::path::Path` that both tools rely on: the file name of a directory
 * entry's path and its extension. Paths are strings whose components are separated by '/';
 * the paths produced by a directory listing never end with a separator.
 */
module Paths {
  import opened Wrappers

  /** The last component of `path`: everything after its last '/'. */
  function FileName(path: string): (name: string)
    ensures '/' !in name
    ensures |name| <= |path| && path[|path| - |name|..] == name
    ensures |name| < |path| ==> path[|path| - |name| - 1] == '/'
  {
    if path == [] then []
    else if path[|path| - 1] == '/' then []
    else
      var init := path[..|path| - 1];
      assert path == init + [path[|path| - 1]];
      FileName(init) + [path[|path| - 1]]
  }

  /** Position of the last '.' in `s`, if there is one. */
  function LastDot(s: string): (r: Option<nat>)
    ensures r.Some? ==> r.value < |s| && s[r.value] == '.' && '.' !in s[r.value + 1..]
    ensures r.None? ==> '.' !in s
  {
    if s == [] then None
    else if s[|s| - 1] == '.' then Some(|s| - 1)
    else
      var r := LastDot(s[..|s| - 1]);
      assert s == s[..|s| - 1] + [s[|s| - 1]];
      assert r.Some? ==> s[r.value + 1..] == s[..|s| - 1][r.value + 1..] + [s[|s| - 1]];
      r
  }

  /**
   * `Path::extension`: the text after the last '.' of the file name. A name whose only '.' is
   * its first char (a hidden file such as `.yml`), a name without '.', and `..` have none.
   */
  function Extension(path: string): Option<string>
  {
    var name := FileName(path);
    if name == ".." then None
    else
      match LastDot(name)
      case None => None
      case Some(i) => if i == 0 then None else Some(name[i + 1..])
  }

  /** An extension is what follows a '.' that is not the name's first char. */
  lemma ExtensionAfterDot(path: string)
    requires Extension(path).Some?
    ensures var name := FileName(path);
            && name != ".."
            && LastDot(name).Some? && LastDot(name).value > 0
            && Extension(path).value == name[LastDot(name).value + 1..]
  {
  }

  /** A last '.' that is not the first char splits the name into a stem and an extension. */
  lemma LastDotSplits(name: string)
    requires LastDot(name).Some? && LastDot(name).value > 0
    ensures exists stem :: stem != [] && name == stem + "." + name[LastDot(name).value + 1..]
  {
    var i := LastDot(name).value;
    assert name == name[..i] + "." + name[i + 1..];
  }

  /** When there is an extension, the name is a non-empty stem, a '.', and the extension. */
  lemma ExtensionSplitsName(path: string)
    requires Extension(path).Some?
    ensures var name, ext := FileName(path), Extension(path).value;
            exists stem :: stem != [] && name == stem + "." + ext && '.' !in ext
  {
    ExtensionAfterDot(path);
    LastDotSplits(FileName(path));
  }

  /** `s` has no '.' after its first char exactly when its last '.', if any, is its first char. */
  lemma LastDotAtMostFirst(s: string)
    ensures (LastDot(s).None? || LastDot(s).value == 0) <==> forall i :: 0 < i < |s| ==> s[i] != '.'
  {
    match LastDot(s)
    case None =>
      assert forall j :: 0 <= j < |s| ==> s[j] in s;
    case Some(k) =>
      if k == 0 {
        assert forall j :: 0 < j < |s| ==> s[j] in s[1..];
      } else {
        assert s[k] == '.';
      }
  }

  /** There is no extension exactly when the name is `..` or has no '.' after its first char. */
  lemma ExtensionAbsent(path: string)
    ensures var name := FileName(path);
            Extension(path).None? <==> name == ".." || forall i :: 0 < i < |name| ==> name[i] != '.'
  {
    LastDotAtMostFirst(FileName(path));
  }

  /** A name without '/' is the file name of any path that ends with '/' and that name. */
  lemma {:induction false} FileNameOfChild(dir: string, name: string)
    requires '/' !in name
    ensures FileName(dir + "/" + name) == name
  {
    if name != [] {
      var init := name[..|name| - 1];
      assert (dir + "/" + name)[..|dir + "/" + name| - 1] == dir + "/" + init;
      assert name == init + [name[|name| - 1]];
      FileNameOfChild(dir, init);
    }
  }

  /** The last '.' of `stem + "." + ext` is the one in front of `ext` when `ext` has none. */
  lemma {:induction false} LastDotBeforeExtension(stem: string, ext: string)
    requires '.' !in ext
    ensures LastDot(stem + "." + ext) == Some(|stem|)
  {
    if ext != [] {
      var init := ext[..|ext| - 1];
      assert (stem + "." + ext)[..|stem + "." + ext| - 1] == stem + "." + init;
      assert ext[|ext| - 1] in ext;
      LastDotBeforeExtension(stem, init);
    }
  }

  /** The extension of `dir/stem.ext` is `ext` whenever `stem` is not empty. */
  lemma ExtensionOfChild(dir: string, stem: string, ext: string)
    requires stem != [] && '/' !in stem && '/' !in ext && '.' !in ext
    requires stem != "." || ext != []
    ensures Extension(dir + "/" + stem + "." + ext) == Some(ext)
  {
    var name := stem + "." + ext;
    assert '/' !in name;
    assert dir + "/" + stem + "." + ext == dir + "/" + name;
    FileNameOfChild(dir, name);
    LastDotBeforeExtension(stem, ext);
    assert name[|stem| + 1..] == ext;
    NotParent(stem, ext);
  }

  /** `stem.ext` is not `..` unless the stem is `.` and the extension empty. */
  lemma NotParent(stem: string, ext: string)
    requires stem != [] && (stem != "." || ext != [])
    ensures stem + "." + ext != ".."
  {
    var name := stem + "." + ext;
    if |name| == 2 {
      assert |stem| == 1 && ext == [];
      assert stem == [stem[0]] && name[0] == stem[0] != '.';
    }
  }
}
