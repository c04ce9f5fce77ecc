# tfproviderdocs `check` package, modelled in Dafny

tfproviderdocs validates the documentation tree of a Terraform provider.
Its `check` package receives a map from directory (for example
`docs/resources` or `website/docs/cdktf/python/r`) to the files found there.
It runs these checks in a fixed order:

- the structural checks on the tree. Their first error aborts the run.
- for each present directory, its per-kind file check. For data sources,
  ephemeral resources, functions and resources, a file-name mismatch check
  runs first. CDKTF directories skip the mismatch check when missing CDKTF
  files are ignored (`IgnoreCdktfMissingFiles`).
- the directories are visited in this order: the registry directories, then
  their CDKTF variants for each language, then the legacy directories, then
  their CDKTF variants for each language.

It gathers every error, sorts the errors and returns them, or nil.

This project models that package:

- `wrappers.dfy`: `Option`/`Result`. These stand for Go's nil pointers and
  `(value, error)` returns.
- `frontmatter.dfy`: the front-matter policy that the per-file checks apply.
  It covers the forbidden and required fields and the subcategory allow-list,
  with the behaviour the package's tests fix.
- `file.dfy`: `FileOptions.FullPath`, the registry size limit and the
  `.DS_Store` ignore list. The file system is an input value that maps a path
  to its size and its parsed front matter.
- `errors.dfy`: error aggregation. An aggregate error is the sequence of its
  messages, nil is the empty sequence, and sorting uses Go's byte-wise string
  order. A sorted permutation is unique, so the sorted output does not depend
  on the order in which errors were gathered.
- `collaborators.dfy`: everything the package calls but this model does not
  define. These are the mismatch check, the other per-kind file checks, the
  extension checks, the contents check, the CDKTF directory test, the
  structural directory checks and the directory-name constants. Each is a
  field of `Env`, so every property holds for any behaviour of them.
- `legacy_resource_file.dfy`, `registry_index_file.dfy`: the two per-file
  checks of the package. Each has:
  - its constructor, which fills nil options and forces the front-matter
    flags;
  - its per-file stage pipeline. The legacy resource check skips a path
    that is itself a CDKTF directory or whose base name is ignored, then
    runs extension, size, read, front matter and contents; it leaves out
    the contents stage for a file whose directory is a CDKTF directory.
    The registry index check has no skip rules and no contents stage: it
    runs extension, size, read and front matter;
  - `RunAll`, which keeps one error per failing file.
- `check.dfy`: `NewCheck` and `Check.Run`. The dispatch is specified by a
  table, `Plan`. Each row is a directory (convention, kind, CDKTF language)
  and the sub-check to run on its files when it is present. `Check.Run` walks
  the directories imperatively. Its contract ties the result to the errors the
  table's sub-checks report: sorted, the same multiset, nil exactly when there
  are none.

## Model

| member | source | states |
|---|---|---|
| Files.FullPath | check/file.go:19-26 | the path itself when no base path is set, otherwise the base path joined with it |
| Files.BaseOfFullPath | check/file.go:19-26 | prefixing the base path keeps the base name, so the ignore rule answers the same for a path and its full path |
| Files.Stat | check/file.go:30-34 | a stat succeeds exactly for files in the file system and yields their size |
| Files.ReadFile | check/legacy_resource_file.go:82-86 | a read succeeds exactly for readable files and yields their content |
| Files.FileSizeCheck | check/file.go:28-42 | a stat failure is passed through; otherwise the check fails exactly when the size is at least 500000 |
| Files.SizeLimitBoundary | check/file.go:36-39 | 499999 bytes pass and 500000 bytes fail |
| Files.FileIgnoreCheck | check/file.go:44-63 | the loop over IgnoreFiles reports true exactly when the base name is on the ignore list |
| Files.IgnoredInAnyDirectory | check/file.go:52-63 | `.DS_Store` is ignored in any directory |
| Files.PlainNameIgnoredIff | check/file.go:44-63 | a plain file name is ignored exactly when it is `.DS_Store`, and a name that only starts with it is not |
| FrontMatter.ForbiddenViolation | check/frontmatter_test.go:82-152 | none exactly when no forbidden field is present; otherwise a forbidden field that is present |
| FrontMatter.RequiredViolation | check/frontmatter_test.go:153-203 | none exactly when every required field is present; otherwise a required field that is absent |
| FrontMatter.Run | check/frontmatter_test.go:206-222 | success exactly when the metadata conforms to every rule; the success value is the subcategory when the field is present and none otherwise |
| FrontMatter.EmptySourceAccepted | check/frontmatter_test.go:15-18 | an empty source passes the default policy and yields no subcategory |
| FrontMatter.DefaultOptionsAcceptWellFormed | check/frontmatter_test.go:19-44 | any well-formed metadata passes the default policy and yields its subcategory when it has one, and none otherwise |
| FrontMatter.MalformedRejected | check/frontmatter_test.go:45-53 | invalid YAML is an error under any options |
| FrontMatter.AllowedSubcategoryDecides | check/frontmatter_test.go:54-81 | with an allow-list, a present subcategory passes exactly when it is listed |
| FrontMatter.ForbiddenFieldRejected | check/frontmatter_test.go:82-152 | each `No*` option rejects exactly the metadata that contains its field |
| FrontMatter.RequiredFieldRejected | check/frontmatter_test.go:153-203 | each `Require*` option rejects exactly the metadata that lacks its field |
| Errors.CollectEmptyIff | check/legacy_resource_file.go:103-113 | the aggregate is nil exactly when every file passed |
| Errors.CollectIsFailingSubsequence | check/legacy_resource_file.go:103-113 | the aggregate holds exactly one message per failing file, in input order |
| Errors.CollectAppend | check/legacy_resource_file.go:103-113 | aggregating two runs of outcomes concatenates their messages |
| Errors.SortErrors | check/check.go:235-237 | the sorted aggregate is sorted and is a permutation of the collected errors |
| Errors.SortedPermutationUnique | check/check.go:235-239 | two sorted permutations of the same errors are equal, so the output is determined |
| LegacyResourceFile.ForceFrontMatter | check/legacy_resource_file.go:51-54 | sidebar_current becomes forbidden, and description, layout and page_title required; the caller's other rules are kept |
| LegacyResourceFile.ResolveOptions | check/legacy_resource_file.go:26-57 | each nil part gets its zero value; empty contents options take the provider name; the front-matter flags are forced |
| LegacyResourceFile.ResolveIdempotent | check/legacy_resource_file.go:26-57 | resolving already resolved options changes nothing, so building the check again for each CDKTF language is harmless |
| LegacyResourceFile.NewLegacyResourceFileCheck | check/legacy_resource_file.go:26-57 | the step-by-step defaulting produces exactly the resolved options |
| LegacyResourceFile.LegacyResourceFileCheck.Run | check/legacy_resource_file.go:59-101 | a path that is itself a CDKTF directory, or whose base name is ignored, passes without any check |
| LegacyResourceFile.LegacyResourceFileCheck.RunPassesExactly | check/legacy_resource_file.go:59-101 | a file passes exactly when it is skipped or every stage passes |
| LegacyResourceFile.LegacyResourceFileCheck.RunStopsAtFirstFailure | check/legacy_resource_file.go:74-98 | the stages run in the order extension, size, read, front matter, contents; the first failure decides the error, which names the path and the stage |
| LegacyResourceFile.LegacyResourceFileCheck.ContentsSkippedInCdktfDirectory | check/legacy_resource_file.go:94-99 | the contents check is never consulted for a file whose directory is a CDKTF directory |
| LegacyResourceFile.LegacyResourceFileCheck.OutcomesAppend | check/legacy_resource_file.go:103-113 | the per-file outcomes of two file lists put together are the outcomes of the first list followed by those of the second |
| LegacyResourceFile.LegacyResourceFileCheck.CollectNext | check/legacy_resource_file.go:103-113 | checking one more file appends that file's error, if it has one, to the errors so far |
| LegacyResourceFile.LegacyResourceFileCheck.OutcomesSplit | check/legacy_resource_file.go:103-113 | each file is checked on its own: the errors of a file list split in two are the first part's errors followed by the second part's |
| LegacyResourceFile.LegacyResourceFileCheck.Outcomes | check/legacy_resource_file.go:103-113 | one outcome per file, in order, each equal to that file's Run |
| LegacyResourceFile.LegacyResourceFileCheck.RunAll | check/legacy_resource_file.go:103-113 | the errors are the collected failing outcomes; nil exactly when every file passes |
| RegistryIndexFile.ForceFrontMatter | check/registry_index_file.go:40-42 | layout, sidebar_current and subcategory become forbidden; the caller's other rules are kept |
| RegistryIndexFile.ResolveOptions | check/registry_index_file.go:23-45 | each nil part gets its zero value and the front-matter flags are forced |
| RegistryIndexFile.ResolveIdempotent | check/registry_index_file.go:23-45 | resolving already resolved options changes nothing |
| RegistryIndexFile.NewRegistryIndexFileCheck | check/registry_index_file.go:23-45 | the step-by-step defaulting produces exactly the resolved options |
| RegistryIndexFile.RegistryIndexFileCheck.ErrorNamesPath | check/registry_index_file.go:47-73 | every error starts with the path it is about |
| RegistryIndexFile.RegistryIndexFileCheck.RunPassesExactly | check/registry_index_file.go:47-73 | a file passes exactly when all four stages pass, and no file is skipped |
| RegistryIndexFile.RegistryIndexFileCheck.RunStopsAtFirstFailure | check/registry_index_file.go:52-70 | extension, size, read and front matter run in that order; the first failure decides the error |
| RegistryIndexFile.RegistryIndexFileCheck.SubcategoryDiscarded | check/registry_index_file.go:66-72 | the subcategory value never changes a file's verdict or error |
| RegistryIndexFile.RegistryIndexFileCheck.Outcomes | check/registry_index_file.go:75-85 | one outcome per file, in order, each equal to that file's Run |
| RegistryIndexFile.RegistryIndexFileCheck.OutcomesAppend | check/registry_index_file.go:75-85 | the per-file outcomes of two file lists put together are the outcomes of the first list followed by those of the second |
| RegistryIndexFile.RegistryIndexFileCheck.CollectNext | check/registry_index_file.go:75-85 | checking one more file appends that file's error, if it has one, to the errors so far |
| RegistryIndexFile.RegistryIndexFileCheck.RunAll | check/registry_index_file.go:75-85 | the errors are the collected failing outcomes; nil exactly when every file passes |
| Checker.Check.constructor | check/check.go:51-61 | nil options become the zero options, and other options are kept |
| Checker.Check.Run | check/check.go:63-240 | an invalid-directories error is returned as it is; otherwise a mixed-directories error is; otherwise the result is nil exactly when the table's sub-checks report nothing, and else a sorted permutation of all their errors |
| Checker.Check.RunMismatch | check/check.go:75-77 | the mismatch check of a present directory reports the errors the table assigns to it |
| Checker.Check.RunFileCheck | check/check.go:79-81 | the file check of a present directory reports the errors the table assigns to it: the legacy resource and registry index checks are built from their options and run on every file, and the other kinds are delegated |
| Checker.Check.RunBucket | check/check.go:74-82 | a directory adds its mismatch errors, when it has that check, and then its file-check errors, or nothing when it is absent |
| Checker.Check.RunConvention | check/check.go:74-124 | the six directories of a convention add their errors in the table's order |
| Checker.Check.RunCdktf | check/check.go:126-150 | each CDKTF language adds the errors of its data source and resource directories, in language order |
| Checker.AbsentDirectoryNoErrors | check/check.go:74 | a directory absent from the map contributes no errors (this holds by the definition of a step's errors; the methods use it for their `ok` branches) |
| Checker.ExecStepsAppend | check/check.go:72-233 | the errors of consecutive parts of the table are concatenated |
| Checker.NilIffNoStepFailed | check/check.go:235-239 | the aggregate is nil exactly when no step reported an error |
| Checker.NilIffNoSubCheckFailed | check/check.go:235-239 | Check.Run's collected errors are empty exactly when no sub-check of the table failed |
| Checker.EveryErrorKept | check/check.go:72-233 | every error of every sub-check is in the aggregate; none is dropped |
| Checker.UnknownKeysIgnored | check/check.go:63-233 | directory keys that are not in the table do not change the errors |
| Checker.MainPlanContents | check/check.go:74-124 | outside the CDKTF loops, the table has exactly the six directories of a convention, with mismatch checks for data sources, ephemeral resources, functions and resources and Terraform as the example language of those three non-function kinds |
| Checker.MainPlanShape | check/check.go:152-207 | no step outside the CDKTF loops is a CDKTF directory, and only data sources, ephemeral resources, functions and resources get a mismatch check |
| Checker.CdktfPlanShape | check/check.go:209-233 | every CDKTF step is a data source or resource directory of one of the languages, and its file check expects that language |
| Checker.GuidesAndIndexNeverMismatched | check/check.go:104-114 | no step of the table runs a mismatch check on a guide or index directory |
| Checker.IgnoredCdktfSkipsMismatch | check/check.go:126-150 | when missing CDKTF files are ignored, no CDKTF directory gets a mismatch check, and the file check of every CDKTF data source and resource directory of every language is in the table, with that language |
| Checker.IgnoredCdktfOnlyFileChecks | check/check.go:128-132 | when missing CDKTF files are ignored, every CDKTF step of the table is a file check with the CDKTF language |
| Checker.CdktfFileChecksInPlan | check/check.go:209-233 | whatever the flag, the table holds the file check of every CDKTF data source and resource directory of every language, in both conventions |
| Checker.CdktfFileCheckRuns | check/check.go:126-150 | whatever the flag, one convention's CDKTF loop runs the file check of each language's data source and resource directories |
| Checker.CdktfMismatchRunsUnlessIgnored | check/check.go:209-233 | when missing CDKTF files are not ignored, every CDKTF data source and resource directory gets both its mismatch check and its file check |

## Left out

- Logging (`log.Printf`) is not modelled, because it does not affect any result.
- Error wording is modelled only as far as the modelled code fixes it. The
  size error omits the two numbers it prints. The front-matter errors use
  fixed wording.
- The file system (`os.Stat`, `os.ReadFile`) is an input value. The
  operating system's error messages are uninterpreted functions of the path.
- The YAML parser and the front-matter source file are not part of this
  model. A file's content is its already parsed metadata. `FrontMatter.Run`
  follows the behaviour the package's tests fix, and reports the first
  violation in the order forbidden fields, required fields, allow-list.
- The mismatch check, the other per-kind file checks, the extension checks,
  the contents check, `IsValidCdktfDirectory`, `InvalidDirectoriesCheck` and
  `MixedDirectoriesCheck` are not part of this model. They are
  uninterpreted fields of `Env`, and so are the directory-name constants and
  the CDKTF language list.
- `filepath.Join`, `filepath.Base` and `filepath.Dir` are modelled without
  path cleaning. `Join` always inserts a `/`, so an empty path under a base
  path leaves a trailing slash (`b/`), where `filepath.Join` gives `b`.
- LegacyResourceFile.NewLegacyResourceFileCheck: works on a copy of the
  options. Go writes the defaults through the caller's pointer, so a shared
  options value is changed in place. `ResolveIdempotent` shows that
  rebuilding the check from the updated value gives the same options.
- RegistryIndexFile.NewRegistryIndexFileCheck: the same as above.
- Go's `sort.Sort` is not stable. The model sorts by insertion, and
  `SortedPermutationUnique` shows the sorted result is the same either way.
- Checker.Check.Run: looks up the four legacy directories at the point where
  each is checked, while the source looks them up together beforehand.
  Nothing changes the map in between, so the result is the same.
