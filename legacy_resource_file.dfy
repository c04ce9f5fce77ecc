/** The legacy (website/docs/r) resource file check: option defaulting,
    the per-file stage pipeline and its aggregation over a directory. */
module LegacyResourceFile {
  import opened Wrappers
  import opened Files
  import opened FrontMatter
  import opened Collaborators
  import opened Errors

  /** Nil sub-options are `None`; the embedded *FileOptions is `fileOptions`. */
  datatype LegacyResourceFileOptions = LegacyResourceFileOptions(
    fileOptions: Option<FileOptions>,
    contents: Option<ContentsOptions>,
    frontMatter: Option<FrontMatterOptions>,
    providerName: string)

  const ZeroOptions := LegacyResourceFileOptions(None, None, None, "")

  const ZeroContentsOptions := ContentsOptions("", map[])

  /** The front-matter policy every legacy resource file gets: sidebar_current
      forbidden; description, layout and page_title required; the caller's
      other rules kept. */
  function ForceFrontMatter(fm: FrontMatterOptions): (r: FrontMatterOptions)
    ensures forall f :: Forbidden(r, f) <==> Forbidden(fm, f) || f == SidebarCurrent
    ensures forall f :: Required(r, f) <==> Required(fm, f) || f in {Description, Layout, PageTitle}
    ensures r.allowedSubcategories == fm.allowedSubcategories
  {
    fm.(noSidebarCurrent := true, requireDescription := true, requireLayout := true, requirePageTitle := true)
  }

  /** The options a constructed check works with. */
  function ResolveOptions(opts: Option<LegacyResourceFileOptions>): (r: LegacyResourceFileOptions)
    ensures r.fileOptions.Some? && r.contents.Some? && r.frontMatter.Some?
    ensures var o := opts.GetOr(ZeroOptions);
      && r.providerName == o.providerName
      && r.fileOptions == (if o.fileOptions.Some? then o.fileOptions else Some(FileOptions("")))
      && r.frontMatter == Some(ForceFrontMatter(o.frontMatter.GetOr(DefaultOptions)))
      && r.contents.value.settings == o.contents.GetOr(ZeroContentsOptions).settings
    ensures var o := opts.GetOr(ZeroOptions);
      o.contents.Some? && o.contents.value.providerName != "" ==>
        r.contents.value.providerName == o.contents.value.providerName
    ensures var o := opts.GetOr(ZeroOptions);
      o.contents.None? || o.contents.value.providerName == "" ==>
        r.contents.value.providerName == o.providerName
  {
    var o := opts.GetOr(ZeroOptions);
    var c := o.contents.GetOr(ZeroContentsOptions);
    LegacyResourceFileOptions(
      Some(o.fileOptions.GetOr(FileOptions(""))),
      Some(if c.providerName == "" then c.(providerName := o.providerName) else c),
      Some(ForceFrontMatter(o.frontMatter.GetOr(DefaultOptions))),
      o.providerName)
  }

  /** Resolving resolved options changes nothing, so constructing a check
      again from the same options (once per CDKTF language) is harmless. */
  lemma ResolveIdempotent(opts: Option<LegacyResourceFileOptions>)
    ensures ResolveOptions(Some(ResolveOptions(opts))) == ResolveOptions(opts)
  {
  }

  /** NewLegacyResourceFileCheck: fill each nil part with its zero value,
      copy the provider name into empty contents options, force the flags. */
  method NewLegacyResourceFileCheck(opts: Option<LegacyResourceFileOptions>) returns (check: LegacyResourceFileCheck)
    ensures check.options == ResolveOptions(opts)
    ensures check.Resolved()
  {
    var o := opts.GetOr(ZeroOptions);
    if o.contents.None? {
      o := o.(contents := Some(ZeroContentsOptions));
    }
    if o.contents.value.providerName == "" {
      o := o.(contents := Some(o.contents.value.(providerName := o.providerName)));
    }
    if o.fileOptions.None? {
      o := o.(fileOptions := Some(FileOptions("")));
    }
    if o.frontMatter.None? {
      o := o.(frontMatter := Some(DefaultOptions));
    }
    var fm := o.frontMatter.value;
    fm := fm.(noSidebarCurrent := true);
    fm := fm.(requireDescription := true);
    fm := fm.(requireLayout := true);
    fm := fm.(requirePageTitle := true);
    o := o.(frontMatter := Some(fm));
    check := LegacyResourceFileCheck(o);
  }

  datatype LegacyResourceFileCheck = LegacyResourceFileCheck(options: LegacyResourceFileOptions) {

    /** What the constructor guarantees and Run relies on (Go would
        dereference a nil pointer otherwise). */
    predicate Resolved() {
      options.fileOptions.Some? && options.contents.Some? && options.frontMatter.Some?
    }

    /** Files Run passes over without any check. */
    predicate Skipped(env: Env, path: string) {
      env.isValidCdktfDirectory(path) || IsIgnored(path)
    }

    /** Every stage passes, stated on the file system directly. */
    predicate Passes(env: Env, path: string, exampleLanguage: string)
      requires Resolved()
    {
      var full := FullPath(options.fileOptions.value, path);
      && env.legacyFileExtensionCheck(path).None?
      && full in env.fs.entries
      && env.fs.entries[full].size < RegistryMaximumSizeOfFile
      && env.fs.entries[full].content.Some?
      && Conforms(options.frontMatter.value, env.fs.entries[full].content.value)
      && (env.isValidCdktfDirectory(Dir(full))
          || env.contentsCheck(options.contents.value, full, exampleLanguage,
                               SubcategoryOf(env.fs.entries[full].content.value)).None?)
    }

    /** LegacyResourceFileCheck.Run: skip rules, then extension, size, read,
        front matter and contents, stopping at the first failing stage. */
    function Run(env: Env, path: string, exampleLanguage: string): (r: Option<string>)
      requires Resolved()
      ensures Skipped(env, path) ==> r == None
    {
      var fullpath := FullPath(options.fileOptions.value, path);
      if env.isValidCdktfDirectory(path) then None
      else if IsIgnored(path) then None
      else if env.legacyFileExtensionCheck(path).Some? then
        Some(StageError(path, Extension, env.legacyFileExtensionCheck(path).value))
      else if FileSizeCheck(env.fs, fullpath).Some? then
        Some(StageError(path, Size, FileSizeCheck(env.fs, fullpath).value))
      else match ReadFile(env.fs, fullpath)
        case Err(e) => Some(StageError(path, Read, e))
        case Ok(content) =>
          match FrontMatter.Run(options.frontMatter.value, content)
          case Err(e) => Some(StageError(path, FrontMatterStage, e))
          case Ok(subcategory) =>
            if env.isValidCdktfDirectory(Dir(fullpath)) then None
            else match env.contentsCheck(options.contents.value, fullpath, exampleLanguage, subcategory)
              case Some(e) => Some(StageError(path, Contents, e))
              case None => None
    }

    /** A file passes exactly when it is skipped or every stage passes. */
    lemma RunPassesExactly(env: Env, path: string, exampleLanguage: string)
      requires Resolved()
      ensures Run(env, path, exampleLanguage) == None <==> Skipped(env, path) || Passes(env, path, exampleLanguage)
    {
    }

    /** The stages run in the order extension, size, read, front matter,
        contents; the first that fails decides the error, which names the
        path and the stage, and no later stage is consulted. */
    lemma RunStopsAtFirstFailure(env: Env, path: string, exampleLanguage: string)
      requires Resolved()
      ensures var r := Run(env, path, exampleLanguage);
        !Skipped(env, path) && env.legacyFileExtensionCheck(path).Some? ==>
        r == Some(StageError(path, Extension, env.legacyFileExtensionCheck(path).value))
      ensures var r := Run(env, path, exampleLanguage);
        var full := FullPath(options.fileOptions.value, path);
        !Skipped(env, path) && env.legacyFileExtensionCheck(path).None? && FileSizeCheck(env.fs, full).Some? ==>
        r == Some(StageError(path, Size, FileSizeCheck(env.fs, full).value))
      ensures var r := Run(env, path, exampleLanguage);
        var full := FullPath(options.fileOptions.value, path);
        !Skipped(env, path) && env.legacyFileExtensionCheck(path).None? && FileSizeCheck(env.fs, full).None?
        && ReadFile(env.fs, full).Err? ==>
        r == Some(StageError(path, Read, ReadFile(env.fs, full).error))
      ensures var r := Run(env, path, exampleLanguage);
        var full := FullPath(options.fileOptions.value, path);
        !Skipped(env, path) && env.legacyFileExtensionCheck(path).None? && FileSizeCheck(env.fs, full).None?
        && ReadFile(env.fs, full).Ok? && FrontMatter.Run(options.frontMatter.value, ReadFile(env.fs, full).value).Err? ==>
        r == Some(StageError(path, FrontMatterStage,
                             FrontMatter.Run(options.frontMatter.value, ReadFile(env.fs, full).value).error))
      ensures var r := Run(env, path, exampleLanguage);
        var full := FullPath(options.fileOptions.value, path);
        !Skipped(env, path) && env.legacyFileExtensionCheck(path).None? && FileSizeCheck(env.fs, full).None?
        && ReadFile(env.fs, full).Ok? && FrontMatter.Run(options.frontMatter.value, ReadFile(env.fs, full).value).Ok?
        && !env.isValidCdktfDirectory(Dir(full)) ==>
        var verdict := env.contentsCheck(options.contents.value, full, exampleLanguage,
                                         SubcategoryOf(ReadFile(env.fs, full).value));
        r == if verdict.Some? then Some(StageError(path, Contents, verdict.value)) else None
    {
    }

    /** The contents check is never consulted for a file whose directory is a
        CDKTF directory: Run does not depend on it there. */
    lemma ContentsSkippedInCdktfDirectory(env: Env, contentsCheck: (ContentsOptions, string, string, Option<string>) -> Option<string>,
                                          path: string, exampleLanguage: string)
      requires Resolved()
      requires env.isValidCdktfDirectory(Dir(FullPath(options.fileOptions.value, path)))
      ensures Run(env.(contentsCheck := contentsCheck), path, exampleLanguage) == Run(env, path, exampleLanguage)
    {
      var other := env.(contentsCheck := contentsCheck);
      var full := FullPath(options.fileOptions.value, path);
      var fm := options.frontMatter.value;
      if Skipped(env, path) {
        assert Skipped(other, path);
      } else {
        RunStopsAtFirstFailure(env, path, exampleLanguage);
        RunStopsAtFirstFailure(other, path, exampleLanguage);
        if env.legacyFileExtensionCheck(path).None? && FileSizeCheck(env.fs, full).None?
           && ReadFile(env.fs, full).Ok? && FrontMatter.Run(fm, ReadFile(env.fs, full).value).Ok?
        {
          RunPassesExactly(env, path, exampleLanguage);
          RunPassesExactly(other, path, exampleLanguage);
          assert Passes(env, path, exampleLanguage) && Passes(other, path, exampleLanguage);
        }
      }
    }

    /** The outcome of Run for each file, in order. */
    function Outcomes(env: Env, files: seq<string>, exampleLanguage: string): (r: seq<Option<string>>)
      requires Resolved()
      ensures |r| == |files|
      ensures forall i :: 0 <= i < |files| ==> r[i] == Run(env, files[i], exampleLanguage)
    {
      if files == [] then []
      else Outcomes(env, files[..|files| - 1], exampleLanguage) + [Run(env, files[|files| - 1], exampleLanguage)]
    }

    /** Outcomes is taken file by file, so it distributes over concatenation. */
    lemma {:induction false} OutcomesAppend(env: Env, a: seq<string>, b: seq<string>, exampleLanguage: string)
      requires Resolved()
      ensures Outcomes(env, a + b, exampleLanguage)
           == Outcomes(env, a, exampleLanguage) + Outcomes(env, b, exampleLanguage)
    {
      if b == [] {
        assert a + b == a;
      } else {
        var n := |b| - 1;
        assert (a + b)[..|a + b| - 1] == a + b[..n];
        OutcomesAppend(env, a, b[..n], exampleLanguage);
      }
    }

    /** Each file is checked on its own: the errors of a directory split in
        two are the errors of the first part followed by those of the second. */
    lemma OutcomesSplit(env: Env, a: seq<string>, b: seq<string>, exampleLanguage: string)
      requires Resolved()
      ensures Collect(Outcomes(env, a + b, exampleLanguage))
           == Collect(Outcomes(env, a, exampleLanguage)) + Collect(Outcomes(env, b, exampleLanguage))
    {
      OutcomesAppend(env, a, b, exampleLanguage);
      CollectAppend(Outcomes(env, a, exampleLanguage), Outcomes(env, b, exampleLanguage));
    }

    /** Checking one more file adds that file's error, if any, to the end. */
    lemma CollectNext(env: Env, files: seq<string>, i: nat, exampleLanguage: string)
      requires Resolved()
      requires i < |files|
      ensures var err := Run(env, files[i], exampleLanguage);
        Collect(Outcomes(env, files[..i + 1], exampleLanguage))
        == Collect(Outcomes(env, files[..i], exampleLanguage)) + (if err.Some? then [err.value] else [])
    {
      assert files[..i + 1] == files[..i] + [files[i]];
      OutcomesSplit(env, files[..i], [files[i]], exampleLanguage);
      assert [files[i]][..0] == [];
    }

    /** RunAll: one error per failing file, in input order; nil when none fails. */
    method RunAll(env: Env, files: seq<string>, exampleLanguage: string) returns (errs: seq<string>)
      requires Resolved()
      ensures errs == Collect(Outcomes(env, files, exampleLanguage))
      ensures errs == [] <==> forall i :: 0 <= i < |files| ==> Run(env, files[i], exampleLanguage).None?
    {
      errs := [];
      for i := 0 to |files|
        invariant errs == Collect(Outcomes(env, files[..i], exampleLanguage))
      {
        var err := Run(env, files[i], exampleLanguage);
        if err.Some? {
          errs := errs + [err.value];
        }
        CollectNext(env, files, i, exampleLanguage);
      }
      assert files[..|files|] == files;
      CollectEmptyIff(Outcomes(env, files, exampleLanguage));
    }
  }
}
