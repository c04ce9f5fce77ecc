/** The registry index (docs/index.md) file check: option defaulting, the
    per-file stage pipeline and its aggregation over a directory. */
module RegistryIndexFile {
  import opened Wrappers
  import opened Files
  import opened FrontMatter
  import opened Collaborators
  import opened Errors

  datatype RegistryIndexFileOptions = RegistryIndexFileOptions(
    fileOptions: Option<FileOptions>,
    frontMatter: Option<FrontMatterOptions>)

  const ZeroOptions := RegistryIndexFileOptions(None, None)

  /** The front-matter policy every registry index file gets: layout,
      sidebar_current and subcategory forbidden; the caller's other rules kept. */
  function ForceFrontMatter(fm: FrontMatterOptions): (r: FrontMatterOptions)
    ensures forall f :: Forbidden(r, f) <==> Forbidden(fm, f) || f in {Layout, SidebarCurrent, Subcategory}
    ensures forall f :: Required(r, f) <==> Required(fm, f)
    ensures r.allowedSubcategories == fm.allowedSubcategories
  {
    fm.(noLayout := true, noSidebarCurrent := true, noSubcategory := true)
  }

  /** The options a constructed check works with. */
  function ResolveOptions(opts: Option<RegistryIndexFileOptions>): (r: RegistryIndexFileOptions)
    ensures r.fileOptions.Some? && r.frontMatter.Some?
    ensures var o := opts.GetOr(ZeroOptions);
      && r.fileOptions == (if o.fileOptions.Some? then o.fileOptions else Some(FileOptions("")))
      && r.frontMatter == Some(ForceFrontMatter(o.frontMatter.GetOr(DefaultOptions)))
  {
    var o := opts.GetOr(ZeroOptions);
    RegistryIndexFileOptions(
      Some(o.fileOptions.GetOr(FileOptions(""))),
      Some(ForceFrontMatter(o.frontMatter.GetOr(DefaultOptions))))
  }

  /** Resolving resolved options changes nothing. */
  lemma ResolveIdempotent(opts: Option<RegistryIndexFileOptions>)
    ensures ResolveOptions(Some(ResolveOptions(opts))) == ResolveOptions(opts)
  {
  }

  /** NewRegistryIndexFileCheck: fill each nil part with its zero value, force
      the three `No*` flags. */
  method NewRegistryIndexFileCheck(opts: Option<RegistryIndexFileOptions>) returns (check: RegistryIndexFileCheck)
    ensures check.options == ResolveOptions(opts)
    ensures check.Resolved()
  {
    var o := opts.GetOr(ZeroOptions);
    if o.fileOptions.None? {
      o := o.(fileOptions := Some(FileOptions("")));
    }
    if o.frontMatter.None? {
      o := o.(frontMatter := Some(DefaultOptions));
    }
    var fm := o.frontMatter.value;
    fm := fm.(noLayout := true);
    fm := fm.(noSidebarCurrent := true);
    fm := fm.(noSubcategory := true);
    o := o.(frontMatter := Some(fm));
    check := RegistryIndexFileCheck(o);
  }

  datatype RegistryIndexFileCheck = RegistryIndexFileCheck(options: RegistryIndexFileOptions) {

    predicate Resolved() {
      options.fileOptions.Some? && options.frontMatter.Some?
    }

    /** Every stage passes, stated on the file system directly. */
    predicate Passes(env: Env, path: string)
      requires Resolved()
    {
      var full := FullPath(options.fileOptions.value, path);
      && env.registryFileExtensionCheck(path).None?
      && full in env.fs.entries
      && env.fs.entries[full].size < RegistryMaximumSizeOfFile
      && env.fs.entries[full].content.Some?
      && Conforms(options.frontMatter.value, env.fs.entries[full].content.value)
    }

    /** RegistryIndexFileCheck.Run: extension, size, read and front matter,
        stopping at the first failing stage; the subcategory is discarded. */
    function Run(env: Env, path: string): Option<string>
      requires Resolved()
    {
      var fullpath := FullPath(options.fileOptions.value, path);
      if env.registryFileExtensionCheck(path).Some? then
        Some(StageError(path, Extension, env.registryFileExtensionCheck(path).value))
      else if FileSizeCheck(env.fs, fullpath).Some? then
        Some(StageError(path, Size, FileSizeCheck(env.fs, fullpath).value))
      else match ReadFile(env.fs, fullpath)
        case Err(e) => Some(StageError(path, Read, e))
        case Ok(content) =>
          match FrontMatter.Run(options.frontMatter.value, content)
          case Err(e) => Some(StageError(path, FrontMatterStage, e))
          case Ok(_) => None
    }

    /** Every error Run returns starts with the path it is about. */
    lemma ErrorNamesPath(env: Env, path: string)
      requires Resolved()
      ensures var r := Run(env, path);
        r.Some? ==> |r.value| >= |path| + 2 && r.value[..|path| + 2] == path + ": "
    {
    }

    /** A file passes exactly when all four stages pass; nothing is skipped. */
    lemma RunPassesExactly(env: Env, path: string)
      requires Resolved()
      ensures Run(env, path) == None <==> Passes(env, path)
    {
    }

    /** The extension check always runs first, for every path (there is no
        ignore list and no CDKTF skip), and each later stage runs only when
        every earlier one passed. */
    lemma RunStopsAtFirstFailure(env: Env, path: string)
      requires Resolved()
      ensures var r := Run(env, path);
        env.registryFileExtensionCheck(path).Some? ==>
        r == Some(StageError(path, Extension, env.registryFileExtensionCheck(path).value))
      ensures var r := Run(env, path);
        var full := FullPath(options.fileOptions.value, path);
        env.registryFileExtensionCheck(path).None? && FileSizeCheck(env.fs, full).Some? ==>
        r == Some(StageError(path, Size, FileSizeCheck(env.fs, full).value))
      ensures var r := Run(env, path);
        var full := FullPath(options.fileOptions.value, path);
        env.registryFileExtensionCheck(path).None? && FileSizeCheck(env.fs, full).None?
        && ReadFile(env.fs, full).Err? ==>
        r == Some(StageError(path, Read, ReadFile(env.fs, full).error))
      ensures var r := Run(env, path);
        var full := FullPath(options.fileOptions.value, path);
        env.registryFileExtensionCheck(path).None? && FileSizeCheck(env.fs, full).None?
        && ReadFile(env.fs, full).Ok? && FrontMatter.Run(options.frontMatter.value, ReadFile(env.fs, full).value).Err? ==>
        r == Some(StageError(path, FrontMatterStage,
                             FrontMatter.Run(options.frontMatter.value, ReadFile(env.fs, full).value).error))
    {
    }

    /** The subcategory value never matters for a constructed check: files
        that differ only in it get the same verdict and the same error. */
    lemma SubcategoryDiscarded(env: Env, path: string, size: nat, fields: set<Field>, s1: string, s2: string)
      requires Resolved()
      requires options.frontMatter.value.noSubcategory
      ensures var full := FullPath(options.fileOptions.value, path);
        var fs1 := env.fs.(entries := env.fs.entries[full := FileEntry(size, Some(Block(fields, s1)))]);
        var fs2 := env.fs.(entries := env.fs.entries[full := FileEntry(size, Some(Block(fields, s2)))]);
        Run(env.(fs := fs1), path) == Run(env.(fs := fs2), path)
    {
      var fm := options.frontMatter.value;
      if ForbiddenViolation(fm, fields).None? {
        assert Subcategory !in fields;
      }
    }

    /** The outcome of Run for each file, in order. */
    function Outcomes(env: Env, files: seq<string>): (r: seq<Option<string>>)
      requires Resolved()
      ensures |r| == |files|
      ensures forall i :: 0 <= i < |files| ==> r[i] == Run(env, files[i])
    {
      if files == [] then []
      else Outcomes(env, files[..|files| - 1]) + [Run(env, files[|files| - 1])]
    }

    /** Outcomes is taken file by file, so it distributes over concatenation. */
    lemma {:induction false} OutcomesAppend(env: Env, a: seq<string>, b: seq<string>)
      requires Resolved()
      ensures Outcomes(env, a + b) == Outcomes(env, a) + Outcomes(env, b)
    {
      if b == [] {
        assert a + b == a;
      } else {
        var n := |b| - 1;
        assert (a + b)[..|a + b| - 1] == a + b[..n];
        OutcomesAppend(env, a, b[..n]);
      }
    }

    /** Checking one more file adds that file's error, if any, to the end. */
    lemma CollectNext(env: Env, files: seq<string>, i: nat)
      requires Resolved()
      requires i < |files|
      ensures var err := Run(env, files[i]);
        Collect(Outcomes(env, files[..i + 1]))
        == Collect(Outcomes(env, files[..i])) + (if err.Some? then [err.value] else [])
    {
      assert files[..i + 1] == files[..i] + [files[i]];
      OutcomesAppend(env, files[..i], [files[i]]);
      CollectAppend(Outcomes(env, files[..i]), Outcomes(env, [files[i]]));
      assert [files[i]][..0] == [];
    }

    /** RunAll: one error per failing file, in input order; nil when none fails. */
    method RunAll(env: Env, files: seq<string>) returns (errs: seq<string>)
      requires Resolved()
      ensures errs == Collect(Outcomes(env, files))
      ensures errs == [] <==> forall i :: 0 <= i < |files| ==> Run(env, files[i]).None?
    {
      errs := [];
      for i := 0 to |files|
        invariant errs == Collect(Outcomes(env, files[..i]))
      {
        var err := Run(env, files[i]);
        if err.Some? {
          errs := errs + [err.value];
        }
        CollectNext(env, files, i);
      }
      assert files[..|files|] == files;
      CollectEmptyIff(Outcomes(env, files));
    }
  }
}
