/** The local filesystem as the upload handler sees it: a set of directory paths and a
    map from regular-file paths to their contents. Paths are plain strings: the
    operations below compare them textually and do no normalisation. */
module Fs {
  import opened Base

  /** The paths os.MkdirAll(p) makes sure are directories: every prefix of p that ends
      just before a '/', and p itself. The empty prefix (the root) is left implicit. */
  function Ancestors(p: string): set<string>
  {
    set i | 0 < i <= |p| && (i == |p| || p[i] == '/') :: p[..i]
  }

  /** The paths MkdirAll makes are non-empty prefixes of p, p itself among them. */
  lemma AncestorsArePrefixes(p: string)
    ensures p != "" ==> p in Ancestors(p)
    ensures forall a :: a in Ancestors(p) ==> a != "" && |a| <= |p| && a == p[..|a|]
  {
    assert p[..|p|] == p;
  }

  /** os.MkdirAll fails for the empty path and when some prefix it needs as a directory is
      already a regular file; an existing directory is not an error. */
  predicate MkdirAllOk(files: map<string, seq<byte>>, p: string)
  {
    p != "" && forall a :: a in Ancestors(p) ==> a !in files
  }

  /** os.Stat(p) fails with "does not exist" (ENOENT): p is neither a directory nor a
      file, and no prefix of it that the lookup walks through is a regular file. A regular
      file on the way makes Stat fail with ENOTDIR instead, which is not "does not exist". */
  predicate StatNotExist(dirs: set<string>, files: map<string, seq<byte>>, p: string)
  {
    p !in dirs && forall a :: a in Ancestors(p) ==> a !in files
  }

  /** A path under a regular file is never reported as not existing. */
  lemma BelowFileIsNotDir(dirs: set<string>, files: map<string, seq<byte>>, dir: string, name: string)
    requires dir != "" && dir in files
    ensures !StatNotExist(dirs, files, Join(dir, name))
  {
    var p := Join(dir, name);
    assert 0 < |dir| < |p| && p[|dir|] == '/' && p[..|dir|] == dir;
    assert p[..|dir|] in Ancestors(p);
  }

  /** An existing directory or file is never reported as not existing. */
  lemma ExistingIsNotAbsent(dirs: set<string>, files: map<string, seq<byte>>, p: string)
    requires p != "" && (p in dirs || p in files)
    ensures !StatNotExist(dirs, files, p)
  {
    if p in files {
      AncestorsArePrefixes(p);
    }
  }

  /** Index of the last '/' of p, if any. */
  function LastSlash(p: string): (r: Option<nat>)
    ensures r.Some? ==> r.value < |p| && p[r.value] == '/' && forall j :: r.value < j < |p| ==> p[j] != '/'
    ensures r.None? ==> forall j :: 0 <= j < |p| ==> p[j] != '/'
    decreases |p|
  {
    if p == [] then None
    else if p[|p| - 1] == '/' then Some(|p| - 1)
    else LastSlash(p[..|p| - 1])
  }

  /** The directory a path is created in must exist: the text before the last '/', where
      the empty text is the root. A path without '/' lives in the working directory. */
  predicate ParentExists(dirs: set<string>, path: string)
  {
    match LastSlash(path)
    case None => true
    case Some(k) => k == 0 || path[..k] in dirs
  }

  /** os.OpenFile(path, O_RDWR|O_CREATE|O_TRUNC) fails on a directory, on a path that ends
      in '/' (which names a directory), and when the containing directory is missing. */
  predicate OpenOk(dirs: set<string>, path: string)
  {
    path != "" && path[|path| - 1] != '/' && path !in dirs && ParentExists(dirs, path)
  }

  /** `dir + "/" + name`, the only way the handler builds paths. */
  function Join(dir: string, name: string): (p: string)
    ensures |p| == |dir| + 1 + |name| && p[..|dir|] == dir && p[|dir|] == '/'
  {
    dir + "/" + name
  }

  /** Joining a directory with a name that holds no '/' puts the name directly in it. */
  lemma {:induction false} LastSlashOfJoin(dir: string, name: string)
    requires forall j :: 0 <= j < |name| ==> name[j] != '/'
    ensures LastSlash(dir + "/" + name) == Some(|dir|)
    decreases |name|
  {
    var p := dir + "/" + name;
    if name == [] {
      assert p[|p| - 1] == '/';
    } else {
      assert p[|p| - 1] == name[|name| - 1];
      assert p[..|p| - 1] == dir + "/" + name[..|name| - 1];
      LastSlashOfJoin(dir, name[..|name| - 1]);
    }
  }

  /** Right after os.MkdirAll(dir) succeeds, a plain file name (non-empty, without '/')
      can be created in dir, unless that path is already a directory. */
  lemma CreatableAfterMkdirAll(dirs: set<string>, files: map<string, seq<byte>>, dir: string, name: string)
    requires MkdirAllOk(files, dir)
    requires name != [] && forall j :: 0 <= j < |name| ==> name[j] != '/'
    requires Join(dir, name) !in dirs
    ensures OpenOk(dirs + Ancestors(dir), Join(dir, name))
  {
    var p := Join(dir, name);
    AncestorsArePrefixes(dir);
    LastSlashOfJoin(dir, name);
    assert p[..|dir|] == dir;
    assert dir in Ancestors(dir);
    assert p[|p| - 1] == name[|name| - 1];
    assert p !in Ancestors(dir);
  }

  class FileSystem {
    var dirs: set<string>
    var files: map<string, seq<byte>>

    /** A path is either a directory or a regular file, never both. */
    ghost predicate Valid()
      reads this
    {
      files.Keys !! dirs
    }

    /** Every path os.Stat reports as existing. */
    function Paths(): set<string>
      reads this
    {
      dirs + files.Keys
    }

    constructor (dirs0: set<string>, files0: map<string, seq<byte>>)
      requires files0.Keys !! dirs0
      ensures Valid() && dirs == dirs0 && files == files0
    {
      dirs := dirs0;
      files := files0;
    }

    /** os.Stat(p) followed by os.IsNotExist. */
    method IsNotExist(p: string) returns (b: bool)
      ensures b == StatNotExist(dirs, files, p)
    {
      b := StatNotExist(dirs, files, p);
    }

    /** os.MkdirAll(p, 0755). */
    method MkdirAll(p: string) returns (ok: bool)
      requires Valid()
      modifies this
      ensures Valid()
      ensures ok == MkdirAllOk(old(files), p)
      ensures files == old(files)
      ensures dirs == if ok then old(dirs) + Ancestors(p) else old(dirs)
    {
      ok := MkdirAllOk(files, p);
      if ok {
        dirs := dirs + Ancestors(p);
      }
    }

    /** os.OpenFile(path, O_RDWR|O_CREATE|O_TRUNC, 0755): creates the file or empties it. */
    method OpenTruncate(path: string) returns (ok: bool)
      requires Valid()
      modifies this
      ensures Valid()
      ensures ok == OpenOk(old(dirs), path)
      ensures dirs == old(dirs)
      ensures files == if ok then old(files)[path := []] else old(files)
    {
      ok := OpenOk(dirs, path);
      if ok {
        files := files[path := []];
      }
    }

    /** io.Copy into an open file: appends the source bytes. A read or write fault after
        k bytes (the oracle `fault`) leaves those k bytes written and reports an error. */
    method Copy(path: string, content: seq<byte>, fault: Option<nat>) returns (written: nat, ok: bool)
      requires Valid() && path in files
      modifies this
      ensures Valid()
      ensures ok == fault.None?
      ensures written == if ok then |content| else Min(fault.value, |content|)
      ensures dirs == old(dirs)
      ensures files == old(files)[path := old(files)[path] + content[..written]]
    {
      written := if fault.None? then |content| else Min(fault.value, |content|);
      ok := fault.None?;
      files := files[path := files[path] + content[..written]];
    }

    /** os.Open(p) for reading: succeeds on any existing path. */
    method Open(p: string) returns (ok: bool)
      ensures ok <==> p in Paths()
    {
      ok := p in dirs || p in files;
    }
  }
}
