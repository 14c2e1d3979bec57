/** The POSIX path operations the file store relies on: `os.path.join`,
    `os.path.basename`, `os.path.splitext`, and the archive name built from them. */
module Paths {
  import opened Text

  /** `posixpath.join(dir, name)`: an absolute `name` replaces `dir`; otherwise
      a `/` is inserted unless `dir` is empty or already ends with one. */
  function Join(dir: string, name: string): string
  {
    if StartsWith(name, "/") then name
    else if dir == "" || EndsWith(dir, "/") then dir + name
    else dir + "/" + name
  }

  /** `posixpath.basename`: everything after the last `/`. */
  function Basename(path: string): (name: string)
    ensures '/' !in name
  {
    Last(Split(path, '/'))
  }

  /** The base name of a joined path is the name joined, when the name holds no `/`. */
  lemma BasenameOfJoin(dir: string, name: string)
    requires '/' !in name
    ensures Basename(Join(dir, name)) == name
  {
    assert !StartsWith(name, "/") by {
      if |name| >= 1 { assert name[0] != '/'; assert name[..1] != "/"; }
    }
    if dir == "" {
      assert dir + name == name;
      SplitWithoutSep(name, '/');
    } else if EndsWith(dir, "/") {
      var d := dir[..|dir| - 1];
      assert dir + name == d + ['/'] + name;
      LastPartAfterSep(d, '/', name);
    } else {
      LastPartAfterSep(dir, '/', name);
    }
  }

  /** A joined path ends with the name joined. */
  lemma JoinEndsWithName(dir: string, name: string)
    ensures EndsWith(Join(dir, name), name)
  {
    var p := Join(dir, name);
    if !StartsWith(name, "/") {
      if dir == "" || EndsWith(dir, "/") {
        assert p == dir + name;
      } else {
        assert p == (dir + "/") + name;
      }
      assert p[|p| - |name|..] == name;
    }
  }

  /** `str.rfind(c)`: the last index holding `c`, or -1. */
  function RFind(s: string, c: char): (i: int)
    ensures -1 <= i < |s|
    ensures i >= 0 ==> s[i] == c
    ensures forall j :: i < j < |s| ==> s[j] != c
  {
    if s == [] then -1
    else if s[|s| - 1] == c then |s| - 1
    else RFind(s[..|s| - 1], c)
  }

  /** `posixpath.splitext`: the extension starts at the last dot of the last
      path component, provided something other than dots precedes that dot
      within the component; otherwise there is no extension. */
  function SplitExt(path: string): (parts: (string, string))
    ensures parts.0 + parts.1 == path
    ensures parts.1 == "" || (parts.1[0] == '.' && '/' !in parts.1 && '.' !in parts.1[1..])
  {
    var sepIndex := RFind(path, '/');
    var dotIndex := RFind(path, '.');
    if dotIndex > sepIndex && exists k :: sepIndex + 1 <= k < dotIndex && path[k] != '.' then
      assert path[..dotIndex] + path[dotIndex..] == path;
      (path[..dotIndex], path[dotIndex..])
    else
      (path, "")
  }

  /** `path` ends with `.ext`, and the character before that dot is neither a
      dot nor a `/`, so `splitext` finds exactly that extension. */
  predicate HasExtension(path: string, ext: string)
  {
    && |path| >= |ext| + 2
    && path[|path| - |ext|..] == ext
    && path[|path| - |ext| - 1] == '.'
    && path[|path| - |ext| - 2] != '.'
    && path[|path| - |ext| - 2] != '/'
  }

  /** `splitext` of a path with extension `ext` splits right before `.ext`. */
  lemma SplitExtFindsExtension(path: string, ext: string)
    requires '.' !in ext && '/' !in ext
    requires HasExtension(path, ext)
    ensures SplitExt(path) == (path[..|path| - |ext| - 1], "." + ext)
  {
    var dot := |path| - |ext| - 1;
    var sepIndex := RFind(path, '/');
    var dotIndex := RFind(path, '.');
    forall j | dot < j < |path| ensures path[j] != '.' && path[j] != '/' {
      assert path[j] == ext[j - dot - 1];
    }
    assert dotIndex == dot;
    assert sepIndex < dot - 1;
    assert sepIndex + 1 <= dot - 1 < dotIndex && path[dot - 1] != '.';
    assert path[dot..] == "." + ext;
  }

  /** `archive_file`'s new name: the path without its extension, then `_` and
      the timestamp, then the original extension. */
  function ArchiveName(path: string, stamp: string): (r: string)
    ensures |r| == |path| + 1 + |stamp|
    ensures r != path
  {
    var (root, ext) := SplitExt(path);
    root + "_" + stamp + ext
  }

  /** Archiving a path with an extension inserts `_stamp` right before the
      extension, so the archive keeps the extension. */
  lemma ArchiveNameKeepsExtension(path: string, stamp: string, ext: string)
    requires '.' !in ext && '/' !in ext
    requires HasExtension(path, ext)
    requires |stamp| >= 1 && stamp[|stamp| - 1] != '.' && stamp[|stamp| - 1] != '/'
    ensures ArchiveName(path, stamp) == path[..|path| - |ext| - 1] + "_" + stamp + "." + ext
    ensures HasExtension(ArchiveName(path, stamp), ext)
  {
    SplitExtFindsExtension(path, ext);
    var r := ArchiveName(path, stamp);
    var root := path[..|path| - |ext| - 1];
    assert r == (root + "_" + stamp) + "." + ext;
    assert r[|r| - |ext|..] == ext;
    assert r[|r| - |ext| - 2] == stamp[|stamp| - 1];
  }
}
