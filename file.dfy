/** File policy helpers: path joining, the registry size limit and the
    ignore list.  The file system is an input value: a map from full path to
    the file's size and, when it can be read, its parsed front matter. */
module Files {
  import opened Wrappers
  import opened FrontMatter

  /** Terraform Registry storage limit, in bytes. */
  const RegistryMaximumSizeOfFile: nat := 500000

  const FileIgnoreDSStore: string := ".DS_Store"

  const IgnoreFiles: seq<string> := [FileIgnoreDSStore]

  datatype FileOptions = FileOptions(basePath: string)

  /** A file that can be stat-ed; `content` is None when reading it fails. */
  datatype FileEntry = FileEntry(size: nat, content: Option<Metadata>)

  /** The file system as seen by the checks.  A path missing from `entries`
      cannot be stat-ed; the operating system's messages are inputs. */
  datatype FileSystem = FileSystem(
    entries: map<string, FileEntry>,
    statError: string -> string,
    readError: string -> string)

  /** os.Stat, reduced to the size. */
  function Stat(fs: FileSystem, path: string): (r: Result<nat>)
    ensures r.Ok? <==> path in fs.entries
    ensures r.Ok? ==> r.value == fs.entries[path].size
  {
    if path in fs.entries then Ok(fs.entries[path].size) else Err(fs.statError(path))
  }

  /** os.ReadFile, reduced to the parsed front matter. */
  function ReadFile(fs: FileSystem, path: string): (r: Result<Metadata>)
    ensures r.Ok? <==> path in fs.entries && fs.entries[path].content.Some?
    ensures r.Ok? ==> r.value == fs.entries[path].content.value
  {
    if path in fs.entries && fs.entries[path].content.Some? then Ok(fs.entries[path].content.value)
    else Err(fs.readError(path))
  }

  /** filepath.Join without path cleaning: a `/` is always inserted, so an
      empty name leaves a trailing slash where filepath.Join would not. */
  function Join(dir: string, name: string): string {
    dir + "/" + name
  }

  /** FileOptions.FullPath: the path itself when no base path is set,
      otherwise the base path joined with it. */
  function FullPath(opts: FileOptions, path: string): (r: string)
    ensures opts.basePath == "" ==> r == path
    ensures opts.basePath != "" ==> r == Join(opts.basePath, path)
  {
    if opts.basePath != "" then Join(opts.basePath, path) else path
  }

  /** Prefixing the base path never changes the base name, so the ignore
      rule gives the same answer on the path and on the full path. */
  lemma BaseOfFullPath(opts: FileOptions, path: string)
    ensures Base(FullPath(opts, path)) == Base(path)
    ensures IsIgnored(FullPath(opts, path)) <==> IsIgnored(path)
  {
    if opts.basePath != "" {
      BaseOfJoin(opts.basePath, path);
    }
  }

  /** The index of the last '/' in `s`, or -1 when there is none. */
  function LastSlash(s: string): (r: int)
    ensures -1 <= r < |s|
    ensures r >= 0 ==> s[r] == '/'
    ensures forall k :: r < k < |s| ==> s[k] != '/'
  {
    if s == [] then -1
    else if s[|s| - 1] == '/' then |s| - 1
    else LastSlash(s[..|s| - 1])
  }

  /** filepath.Base, simplified: the last '/'-separated segment. */
  function Base(s: string): (r: string)
    ensures '/' !in r
    ensures |r| <= |s| && r == s[|s| - |r|..]
    ensures |r| < |s| ==> s[|s| - |r| - 1] == '/'
  {
    s[LastSlash(s) + 1..]
  }

  /** filepath.Dir, simplified: everything before the last '/', or "." when
      there is no '/'. */
  function Dir(s: string): string {
    var k := LastSlash(s);
    if k < 0 then "." else s[..k]
  }

  /** The last slash is determined by the two facts LastSlash promises. */
  lemma LastSlashUnique(s: string, k: int)
    requires -1 <= k < |s|
    requires k >= 0 ==> s[k] == '/'
    requires forall j :: k < j < |s| ==> s[j] != '/'
    ensures LastSlash(s) == k
  {
  }

  /** The base name of a joined path is the base name of its last part. */
  lemma BaseOfJoin(dir: string, name: string)
    ensures Base(Join(dir, name)) == Base(name)
  {
    var s := Join(dir, name);
    var k := LastSlash(name);
    var off := |dir| + 1;
    assert s[off..] == name;
    assert forall j :: 0 <= j < |name| ==> s[off + j] == name[j];
    if k >= 0 {
      LastSlashUnique(s, off + k);
    } else {
      LastSlashUnique(s, |dir|);
    }
  }

  /** A name without '/' is its own base name. */
  lemma BaseOfPlainName(name: string)
    requires '/' !in name
    ensures Base(name) == name
  {
    LastSlashUnique(name, -1);
  }

  /** Whether the base name of `path` is on the ignore list. */
  predicate IsIgnored(path: string) {
    Base(path) in IgnoreFiles
  }

  /** FileIgnoreCheck: a search of IgnoreFiles for the base name of `path`. */
  method FileIgnoreCheck(path: string) returns (ignored: bool)
    ensures ignored <==> IsIgnored(path)
  {
    var fileName := Base(path);
    for i := 0 to |IgnoreFiles|
      invariant forall j :: 0 <= j < i ==> IgnoreFiles[j] != fileName
    {
      if IgnoreFiles[i] == fileName {
        return true;
      }
    }
    return false;
  }

  /** The ignore rule looks at the base name only: `.DS_Store` in any
      directory is ignored. */
  lemma IgnoredInAnyDirectory(dir: string)
    ensures IsIgnored(Join(dir, FileIgnoreDSStore))
  {
    BaseOfJoin(dir, FileIgnoreDSStore);
    BaseOfPlainName(FileIgnoreDSStore);
  }

  /** A plain name is ignored exactly when it is `.DS_Store`, so a longer
      name that starts with it (`.DS_Store.md`) is not. */
  lemma PlainNameIgnoredIff(name: string)
    requires '/' !in name
    ensures IsIgnored(name) <==> name == FileIgnoreDSStore
  {
    BaseOfPlainName(name);
  }

  /** FileSizeCheck: a stat failure is returned as it is; otherwise a file
      fails exactly when its size reaches the registry limit. */
  function FileSizeCheck(fs: FileSystem, fullpath: string): (r: Option<string>)
    ensures Stat(fs, fullpath).Err? ==> r == Some(Stat(fs, fullpath).error)
    ensures Stat(fs, fullpath).Ok? ==> (r.Some? <==> fs.entries[fullpath].size >= RegistryMaximumSizeOfFile)
  {
    match Stat(fs, fullpath)
    case Err(e) => Some(e)
    case Ok(size) =>
      if size >= RegistryMaximumSizeOfFile then
        Some("exceeded maximum size of documentation file for Terraform Registry")
      else None
  }

  /** The boundary of the size rule: 499,999 bytes pass, 500,000 fail. */
  lemma SizeLimitBoundary(fs: FileSystem, p: string, q: string)
    requires p in fs.entries && fs.entries[p].size == 499999
    requires q in fs.entries && fs.entries[q].size == 500000
    ensures FileSizeCheck(fs, p) == None
    ensures FileSizeCheck(fs, q).Some?
  {
  }
}
