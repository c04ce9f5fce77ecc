/** The orchestrator: which checks run for which directory of the
    documentation tree, and how their errors are gathered.

    The dispatch is specified by `Plan`, a fixed table of steps (a directory
    and the sub-check to run on its files, if the directory is present).
    `Check.Run` is the imperative sequence of lookups and appends; its
    contract ties the errors it returns to the table. */
module Checker {
  import opened Wrappers
  import opened Collaborators
  import opened Errors
  import LegacyResourceFile
  import RegistryIndexFile

  datatype CheckOptions = CheckOptions(
    dataSourceFileMismatch: Option<KindOptions>,
    ephemeralFileMismatch: Option<KindOptions>,
    functionFileMismatch: Option<KindOptions>,
    resourceFileMismatch: Option<KindOptions>,
    legacyDataSourceFile: Option<KindOptions>,
    legacyEphemeralFile: Option<KindOptions>,
    legacyFunctionFile: Option<KindOptions>,
    legacyGuideFile: Option<KindOptions>,
    legacyIndexFile: Option<KindOptions>,
    legacyResourceFile: Option<LegacyResourceFile.LegacyResourceFileOptions>,
    providerName: string,
    providerSource: string,
    registryDataSourceFile: Option<KindOptions>,
    registryEphemeralFile: Option<KindOptions>,
    registryFunctionFile: Option<KindOptions>,
    registryGuideFile: Option<KindOptions>,
    registryIndexFile: Option<RegistryIndexFile.RegistryIndexFileOptions>,
    registryResourceFile: Option<KindOptions>,
    ignoreCdktfMissingFiles: bool)

  const ZeroCheckOptions := CheckOptions(
    None, None, None, None,
    None, None, None, None, None, None,
    "", "",
    None, None, None, None, None, None,
    false)

  /** A directory of the documentation tree: a kind's directory under a
      convention's top directory, or under one CDKTF language's. */
  datatype Directory = Directory(convention: Convention, kind: Kind, cdktfLanguage: Option<string>)

  /** A sub-check run on the files of one directory: the mismatch check, or
      the per-kind file check with the language expected in its examples. */
  datatype SubCheck = Mismatch | FileCheck(language: Option<string>)

  datatype Step = Step(directory: Directory, check: SubCheck)

  /** The top directory of a convention (`docs` or `website/docs`). */
  function IndexDirectory(names: DirectoryNames, convention: Convention): string {
    match convention
    case Registry => names.registryIndex
    case Legacy => names.legacyIndex
  }

  /** The subdirectory of a kind under a convention's top directory. */
  function Subdirectory(names: DirectoryNames, convention: Convention, kind: Kind): string {
    match convention
    case Registry =>
      (match kind
       case DataSource => names.registryDataSources
       case Ephemeral => names.registryEphemerals
       case Function => names.registryFunctions
       case Guide => names.registryGuides
       case Index => ""
       case Resource => names.registryResources)
    case Legacy =>
      (match kind
       case DataSource => names.legacyDataSources
       case Ephemeral => names.legacyEphemerals
       case Function => names.legacyFunctions
       case Guide => names.legacyGuides
       case Index => ""
       case Resource => names.legacyResources)
  }

  /** The key of a directory in the directory map: `<index>/<subdirectory>`,
      the top directory itself for the index kind, and
      `<index>/<cdktf>/<language>/<subdirectory>` under a CDKTF language. */
  function DirectoryKey(names: DirectoryNames, d: Directory): string {
    var index := IndexDirectory(names, d.convention);
    match d.cdktfLanguage
    case None =>
      if d.kind == Index then index else index + "/" + Subdirectory(names, d.convention, d.kind)
    case Some(language) =>
      index + "/" + names.cdktfIndex + "/" + language + "/" + Subdirectory(names, d.convention, d.kind)
  }

  function MismatchOptions(opts: CheckOptions, kind: Kind): Option<KindOptions> {
    match kind
    case DataSource => opts.dataSourceFileMismatch
    case Ephemeral => opts.ephemeralFileMismatch
    case Function => opts.functionFileMismatch
    case Resource => opts.resourceFileMismatch
    case _ => None
  }

  /** The options of the per-kind file checks that are not part of this model. */
  function KindFileOptions(opts: CheckOptions, convention: Convention, kind: Kind): Option<KindOptions> {
    match convention
    case Legacy =>
      (match kind
       case DataSource => opts.legacyDataSourceFile
       case Ephemeral => opts.legacyEphemeralFile
       case Function => opts.legacyFunctionFile
       case Guide => opts.legacyGuideFile
       case Index => opts.legacyIndexFile
       case Resource => None)
    case Registry =>
      (match kind
       case DataSource => opts.registryDataSourceFile
       case Ephemeral => opts.registryEphemeralFile
       case Function => opts.registryFunctionFile
       case Guide => opts.registryGuideFile
       case Index => None
       case Resource => opts.registryResourceFile)
  }

  /** The errors of one step's sub-check on the files of its directory.  The
      legacy resource and registry index checks are the ones of this model,
      constructed from their options; the others are delegated. */
  function RunSubCheck(opts: CheckOptions, env: Env, step: Step, files: seq<string>): seq<string> {
    var d := step.directory;
    match step.check
    case Mismatch => env.fileMismatchCheck(MismatchOptions(opts, d.kind), files)
    case FileCheck(language) =>
      if d.convention == Legacy && d.kind == Resource then
        var c := LegacyResourceFile.LegacyResourceFileCheck(LegacyResourceFile.ResolveOptions(opts.legacyResourceFile));
        Collect(c.Outcomes(env, files, language.GetOr("")))
      else if d.convention == Registry && d.kind == Index then
        var c := RegistryIndexFile.RegistryIndexFileCheck(RegistryIndexFile.ResolveOptions(opts.registryIndexFile));
        Collect(c.Outcomes(env, files))
      else
        env.kindFileCheck(d.convention, d.kind, KindFileOptions(opts, d.convention, d.kind), files, language)
  }

  /** One directory: its mismatch check when `mismatch` holds, then its file check. */
  function Bucket(d: Directory, mismatch: bool, language: Option<string>): seq<Step> {
    (if mismatch then [Step(d, Mismatch)] else []) + [Step(d, FileCheck(language))]
  }

  /** The non-CDKTF directories of a convention, in the order they are visited. */
  function MainPlan(c: Convention): seq<Step> {
    var terraform := Some(FencedCodeBlockLanguageTerraform);
    Bucket(Directory(c, DataSource, None), true, terraform)
    + Bucket(Directory(c, Ephemeral, None), true, terraform)
    + Bucket(Directory(c, Function, None), true, None)
    + Bucket(Directory(c, Guide, None), false, None)
    + Bucket(Directory(c, Index, None), false, None)
    + Bucket(Directory(c, Resource, None), true, terraform)
  }

  /** The CDKTF directories of one language: data sources then resources,
      each with its mismatch check unless missing CDKTF files are ignored. */
  function CdktfLanguagePlan(c: Convention, ignoreMissing: bool, language: string): seq<Step> {
    Bucket(Directory(c, DataSource, Some(language)), !ignoreMissing, Some(language))
    + Bucket(Directory(c, Resource, Some(language)), !ignoreMissing, Some(language))
  }

  function CdktfPlan(c: Convention, ignoreMissing: bool, languages: seq<string>): seq<Step> {
    if languages == [] then []
    else CdktfPlan(c, ignoreMissing, languages[..|languages| - 1])
         + CdktfLanguagePlan(c, ignoreMissing, languages[|languages| - 1])
  }

  /** The whole dispatch table: registry, registry CDKTF, legacy, legacy CDKTF. */
  function Plan(languages: seq<string>, ignoreMissing: bool): seq<Step> {
    MainPlan(Registry) + CdktfPlan(Registry, ignoreMissing, languages)
    + MainPlan(Legacy) + CdktfPlan(Legacy, ignoreMissing, languages)
  }

  /** The errors of one step: those of its sub-check when its directory is present. */
  function ExecStep(opts: CheckOptions, env: Env, directories: map<string, seq<string>>, step: Step): seq<string> {
    var key := DirectoryKey(env.names, step.directory);
    if key in directories then RunSubCheck(opts, env, step, directories[key]) else []
  }

  function Exec(opts: CheckOptions, env: Env, directories: map<string, seq<string>>): Step -> seq<string> {
    step => ExecStep(opts, env, directories, step)
  }

  /** `exec` gives the errors of every step under these options and
      directories (stated so that a step's sub-check is unfolded only where
      it is run). */
  ghost predicate Runs(exec: Step -> seq<string>, opts: CheckOptions, env: Env, directories: map<string, seq<string>>) {
    forall step {:trigger ExecStep(opts, env, directories, step)} :: exec(step) == ExecStep(opts, env, directories, step)
  }

  /** The errors of a sequence of steps, concatenated in order; `exec`
      gives the errors of one step. */
  function ExecSteps(exec: Step -> seq<string>, steps: seq<Step>): seq<string> {
    if steps == [] then []
    else ExecSteps(exec, steps[..|steps| - 1]) + exec(steps[|steps| - 1])
  }

  /** Every error the table's sub-checks report, in visiting order, before sorting. */
  function Collected(opts: CheckOptions, env: Env, directories: map<string, seq<string>>): seq<string> {
    ExecSteps(Exec(opts, env, directories), Plan(env.names.cdktfLanguages, opts.ignoreCdktfMissingFiles))
  }

  lemma ExecRuns(opts: CheckOptions, env: Env, directories: map<string, seq<string>>)
    ensures Runs(Exec(opts, env, directories), opts, env, directories)
  {
  }

  /** A step whose directory is absent reports nothing. */
  lemma AbsentDirectoryNoErrors(exec: Step -> seq<string>, opts: CheckOptions, env: Env,
                                directories: map<string, seq<string>>, step: Step)
    requires Runs(exec, opts, env, directories)
    requires DirectoryKey(env.names, step.directory) !in directories
    ensures exec(step) == []
  {
    assert exec(step) == ExecStep(opts, env, directories, step);
  }

  /** The errors of consecutive parts of a table are concatenated. */
  lemma {:induction false} ExecStepsAppend(exec: Step -> seq<string>, a: seq<Step>, b: seq<Step>)
    ensures ExecSteps(exec, a + b) == ExecSteps(exec, a) + ExecSteps(exec, b)
  {
    if b == [] {
      assert a + b == a;
    } else {
      var n := |b| - 1;
      assert (a + b)[..|a + b| - 1] == a + b[..n];
      ExecStepsAppend(exec, a, b[..n]);
    }
  }

  /** A directory's errors: those of its mismatch check, then those of its file check. */
  lemma BucketErrors(exec: Step -> seq<string>, d: Directory, mismatch: bool, language: Option<string>)
    ensures ExecSteps(exec, Bucket(d, mismatch, language))
         == (if mismatch then exec(Step(d, Mismatch)) else []) + exec(Step(d, FileCheck(language)))
  {
    var f := Step(d, FileCheck(language));
    assert ExecSteps(exec, [f]) == exec(f) by {
      assert [f][..0] == [];
    }
    if mismatch {
      var m := Step(d, Mismatch);
      assert ExecSteps(exec, [m]) == exec(m) by {
        assert [m][..0] == [];
      }
      ExecStepsAppend(exec, [m], [f]);
    }
  }

  /** The errors of a convention's six directories, appended to `before`
      one directory at a time. */
  lemma MainPlanErrors(exec: Step -> seq<string>, c: Convention, before: seq<string>)
    ensures var terraform := Some(FencedCodeBlockLanguageTerraform);
      before + ExecSteps(exec, MainPlan(c))
      == before
       + ExecSteps(exec, Bucket(Directory(c, DataSource, None), true, terraform))
       + ExecSteps(exec, Bucket(Directory(c, Ephemeral, None), true, terraform))
       + ExecSteps(exec, Bucket(Directory(c, Function, None), true, None))
       + ExecSteps(exec, Bucket(Directory(c, Guide, None), false, None))
       + ExecSteps(exec, Bucket(Directory(c, Index, None), false, None))
       + ExecSteps(exec, Bucket(Directory(c, Resource, None), true, terraform))
  {
    var terraform := Some(FencedCodeBlockLanguageTerraform);
    var b1 := Bucket(Directory(c, DataSource, None), true, terraform);
    var b2 := Bucket(Directory(c, Ephemeral, None), true, terraform);
    var b3 := Bucket(Directory(c, Function, None), true, None);
    var b4 := Bucket(Directory(c, Guide, None), false, None);
    var b5 := Bucket(Directory(c, Index, None), false, None);
    var b6 := Bucket(Directory(c, Resource, None), true, terraform);
    ExecStepsAppend(exec, b1 + b2 + b3 + b4 + b5, b6);
    ExecStepsAppend(exec, b1 + b2 + b3 + b4, b5);
    ExecStepsAppend(exec, b1 + b2 + b3, b4);
    ExecStepsAppend(exec, b1 + b2, b3);
    ExecStepsAppend(exec, b1, b2);
  }

  /** One more language of a CDKTF loop appends its two directories' errors. */
  lemma CdktfPlanErrors(exec: Step -> seq<string>, c: Convention, ignoreMissing: bool,
                        languages: seq<string>, i: nat, before: seq<string>)
    requires i < |languages|
    ensures var language := languages[i];
      before + ExecSteps(exec, CdktfPlan(c, ignoreMissing, languages[..i + 1]))
      == before + ExecSteps(exec, CdktfPlan(c, ignoreMissing, languages[..i]))
       + ExecSteps(exec, Bucket(Directory(c, DataSource, Some(language)), !ignoreMissing, Some(language)))
       + ExecSteps(exec, Bucket(Directory(c, Resource, Some(language)), !ignoreMissing, Some(language)))
  {
    var language := languages[i];
    var b1 := Bucket(Directory(c, DataSource, Some(language)), !ignoreMissing, Some(language));
    var b2 := Bucket(Directory(c, Resource, Some(language)), !ignoreMissing, Some(language));
    assert languages[..i + 1][..i] == languages[..i];
    var prev := CdktfPlan(c, ignoreMissing, languages[..i]);
    assert CdktfPlan(c, ignoreMissing, languages[..i + 1]) == prev + (b1 + b2);
    ExecStepsAppend(exec, prev, b1 + b2);
    ExecStepsAppend(exec, b1, b2);
  }

  /** The errors of four consecutive parts of a table, in order.  The
      leading `[] +` is the empty aggregate Check.Run starts from, so the sum
      has the same left-nested shape as the one Run builds. */
  lemma ExecStepsAppend4(exec: Step -> seq<string>, a: seq<Step>, b: seq<Step>, c: seq<Step>, d: seq<Step>)
    ensures ExecSteps(exec, a + b + c + d)
         == [] + ExecSteps(exec, a) + ExecSteps(exec, b) + ExecSteps(exec, c) + ExecSteps(exec, d)
  {
    var ea, eb, ec, ed := ExecSteps(exec, a), ExecSteps(exec, b), ExecSteps(exec, c), ExecSteps(exec, d);
    ExecStepsAppend(exec, a, b);
    ExecStepsAppend(exec, a + b, c);
    ExecStepsAppend(exec, a + b + c, d);
    assert [] + ea == ea;
    assert ExecSteps(exec, a + b + c + d) == ea + eb + ec + ed;
  }

  /** The whole table's errors: the four parts in visiting order, appended
      to the empty aggregate as Check.Run appends them. */
  lemma PlanErrors(exec: Step -> seq<string>, languages: seq<string>, ignoreMissing: bool)
    ensures ExecSteps(exec, Plan(languages, ignoreMissing))
         == []
          + ExecSteps(exec, MainPlan(Registry))
          + ExecSteps(exec, CdktfPlan(Registry, ignoreMissing, languages))
          + ExecSteps(exec, MainPlan(Legacy))
          + ExecSteps(exec, CdktfPlan(Legacy, ignoreMissing, languages))
  {
    ExecStepsAppend4(exec, MainPlan(Registry), CdktfPlan(Registry, ignoreMissing, languages),
                     MainPlan(Legacy), CdktfPlan(Legacy, ignoreMissing, languages));
  }

  /** The aggregate is nil exactly when no step reported an error. */
  lemma {:induction false} NilIffNoStepFailed(exec: Step -> seq<string>, steps: seq<Step>)
    ensures ExecSteps(exec, steps) == [] <==> forall i :: 0 <= i < |steps| ==> exec(steps[i]) == []
  {
    if steps != [] {
      var init := steps[..|steps| - 1];
      NilIffNoStepFailed(exec, init);
      assert forall i :: 0 <= i < |init| ==> init[i] == steps[i];
    }
  }

  /** Errors accumulate: every error of every step is in the aggregate, none is dropped. */
  lemma {:induction false} EveryErrorKept(exec: Step -> seq<string>, steps: seq<Step>, i: nat)
    requires i < |steps|
    ensures multiset(exec(steps[i])) <= multiset(ExecSteps(exec, steps))
  {
    var n := |steps| - 1;
    var init := steps[..n];
    assert ExecSteps(exec, steps) == ExecSteps(exec, init) + exec(steps[n]);
    if i < n {
      EveryErrorKept(exec, init, i);
      assert init[i] == steps[i];
    }
  }

  /** Two runners that agree on every step give the same aggregate. */
  lemma {:induction false} AgreeingStepsAgree(exec1: Step -> seq<string>, exec2: Step -> seq<string>, steps: seq<Step>)
    requires forall i :: 0 <= i < |steps| ==> exec1(steps[i]) == exec2(steps[i])
    ensures ExecSteps(exec1, steps) == ExecSteps(exec2, steps)
  {
    if steps != [] {
      var init := steps[..|steps| - 1];
      assert forall i :: 0 <= i < |init| ==> init[i] == steps[i];
      AgreeingStepsAgree(exec1, exec2, init);
    }
  }

  /** Check.Run reports nothing exactly when no sub-check of the table failed. */
  lemma NilIffNoSubCheckFailed(opts: CheckOptions, env: Env, directories: map<string, seq<string>>)
    ensures var steps := Plan(env.names.cdktfLanguages, opts.ignoreCdktfMissingFiles);
      Collected(opts, env, directories) == []
      <==> forall i :: 0 <= i < |steps| ==> ExecStep(opts, env, directories, steps[i]) == []
  {
    ExecRuns(opts, env, directories);
    RunsNilIff(Exec(opts, env, directories), opts, env, directories,
               Plan(env.names.cdktfLanguages, opts.ignoreCdktfMissingFiles));
  }

  lemma RunsNilIff(exec: Step -> seq<string>, opts: CheckOptions, env: Env, directories: map<string, seq<string>>, steps: seq<Step>)
    requires Runs(exec, opts, env, directories)
    ensures ExecSteps(exec, steps) == [] <==> forall i :: 0 <= i < |steps| ==> ExecStep(opts, env, directories, steps[i]) == []
  {
    NilIffNoStepFailed(exec, steps);
  }

  /** Only the table's directories matter: removing every other key from
      the directory map leaves the errors unchanged. */
  lemma UnknownKeysIgnored(opts: CheckOptions, env: Env, directories: map<string, seq<string>>)
    ensures var steps := Plan(env.names.cdktfLanguages, opts.ignoreCdktfMissingFiles);
      var keys := set i | 0 <= i < |steps| :: DirectoryKey(env.names, steps[i].directory);
      Collected(opts, env, directories) == Collected(opts, env, map k | k in directories && k in keys :: directories[k])
  {
    var steps := Plan(env.names.cdktfLanguages, opts.ignoreCdktfMissingFiles);
    var keys := set i | 0 <= i < |steps| :: DirectoryKey(env.names, steps[i].directory);
    var restricted := map k | k in directories && k in keys :: directories[k];
    forall i | 0 <= i < |steps|
      ensures Exec(opts, env, directories)(steps[i]) == Exec(opts, env, restricted)(steps[i])
    {
      assert DirectoryKey(env.names, steps[i].directory) in keys;
    }
    AgreeingStepsAgree(Exec(opts, env, directories), Exec(opts, env, restricted), steps);
  }

  /** A step of a CDKTF plan over `universe`: a data source or resource
      directory of the plan's convention under one of the languages of
      `universe`, whose file check expects that language, and which is a
      mismatch check only when missing files are not ignored. */
  predicate CdktfStep(s: Step, c: Convention, ignoreMissing: bool, universe: seq<string>) {
    var d := s.directory;
    && d.convention == c
    && d.kind in {DataSource, Resource}
    && d.cdktfLanguage.Some? && d.cdktfLanguage.value in universe
    && (s.check.FileCheck? ==> s.check.language == d.cdktfLanguage)
    && (s.check.Mismatch? ==> !ignoreMissing)
  }

  lemma CdktfLanguagePlanShape(c: Convention, ignoreMissing: bool, language: string, universe: seq<string>)
    requires language in universe
    ensures forall s :: s in CdktfLanguagePlan(c, ignoreMissing, language) ==> CdktfStep(s, c, ignoreMissing, universe)
  {
    var ds, res := Directory(c, DataSource, Some(language)), Directory(c, Resource, Some(language));
    if ignoreMissing {
      assert CdktfLanguagePlan(c, ignoreMissing, language)
          == [Step(ds, FileCheck(Some(language))), Step(res, FileCheck(Some(language)))];
    } else {
      assert CdktfLanguagePlan(c, ignoreMissing, language)
          == [Step(ds, Mismatch), Step(ds, FileCheck(Some(language))), Step(res, Mismatch), Step(res, FileCheck(Some(language)))];
    }
  }

  /** Every step of a CDKTF plan is for one of its languages. */
  lemma {:induction false} CdktfPlanShape(c: Convention, ignoreMissing: bool, languages: seq<string>, universe: seq<string>)
    requires forall l :: l in languages ==> l in universe
    ensures forall s :: s in CdktfPlan(c, ignoreMissing, languages) ==> CdktfStep(s, c, ignoreMissing, universe)
  {
    if languages != [] {
      var n := |languages| - 1;
      assert forall l :: l in languages[..n] ==> l in languages;
      CdktfPlanShape(c, ignoreMissing, languages[..n], universe);
      CdktfLanguagePlanShape(c, ignoreMissing, languages[n], universe);
    }
  }

  /** Outside the CDKTF loops, the steps are exactly the six directories of
      each convention with the checks the source gives them. */
  lemma MainPlanContents(c: Convention)
    ensures var terraform := Some(FencedCodeBlockLanguageTerraform);
      MainPlan(c) == [
        Step(Directory(c, DataSource, None), Mismatch), Step(Directory(c, DataSource, None), FileCheck(terraform)),
        Step(Directory(c, Ephemeral, None), Mismatch), Step(Directory(c, Ephemeral, None), FileCheck(terraform)),
        Step(Directory(c, Function, None), Mismatch), Step(Directory(c, Function, None), FileCheck(None)),
        Step(Directory(c, Guide, None), FileCheck(None)),
        Step(Directory(c, Index, None), FileCheck(None)),
        Step(Directory(c, Resource, None), Mismatch), Step(Directory(c, Resource, None), FileCheck(terraform))]
  {
  }

  /** The steps outside the CDKTF loops: no CDKTF language, and a mismatch
      check only for data sources, ephemeral resources, functions and resources. */
  lemma MainPlanShape(c: Convention)
    ensures forall s :: s in MainPlan(c) ==>
      && s.directory.convention == c && s.directory.cdktfLanguage.None?
      && (s.check.Mismatch? ==> s.directory.kind in {DataSource, Ephemeral, Function, Resource})
  {
    MainPlanContents(c);
  }

  /** A step of the table comes from one of its four parts. */
  lemma PlanParts(s: Step, languages: seq<string>, ignoreMissing: bool)
    requires s in Plan(languages, ignoreMissing)
    ensures || s in MainPlan(Registry) || s in CdktfPlan(Registry, ignoreMissing, languages)
            || s in MainPlan(Legacy) || s in CdktfPlan(Legacy, ignoreMissing, languages)
  {
  }

  /** Guide and index directories get their file check only: no step of the
      table runs a mismatch check for them. */
  lemma GuidesAndIndexNeverMismatched(languages: seq<string>, ignoreMissing: bool)
    ensures forall s :: s in Plan(languages, ignoreMissing) && s.check.Mismatch? ==> s.directory.kind !in {Guide, Index}
  {
    MainPlanShape(Registry);
    MainPlanShape(Legacy);
    CdktfPlanShape(Registry, ignoreMissing, languages, languages);
    CdktfPlanShape(Legacy, ignoreMissing, languages, languages);
    forall s | s in Plan(languages, ignoreMissing) && s.check.Mismatch?
      ensures s.directory.kind !in {Guide, Index}
    {
      PlanParts(s, languages, ignoreMissing);
    }
  }

  /** With missing CDKTF files ignored, no CDKTF directory gets a mismatch
      check, while the file check of every CDKTF data source and resource
      directory of every language still runs, with the CDKTF language. */
  lemma IgnoredCdktfSkipsMismatch(languages: seq<string>)
    ensures forall s :: s in Plan(languages, true) && s.directory.cdktfLanguage.Some? ==>
      s.check == FileCheck(s.directory.cdktfLanguage)
    ensures forall c, language, kind :: language in languages && kind in {DataSource, Resource} ==>
      Step(Directory(c, kind, Some(language)), FileCheck(Some(language))) in Plan(languages, true)
  {
    IgnoredCdktfOnlyFileChecks(languages);
    CdktfFileChecksInPlan(languages, true);
  }

  /** With missing CDKTF files ignored, every CDKTF step of the table is a
      file check with the CDKTF language. */
  lemma IgnoredCdktfOnlyFileChecks(languages: seq<string>)
    ensures forall s :: s in Plan(languages, true) && s.directory.cdktfLanguage.Some? ==>
      s.check == FileCheck(s.directory.cdktfLanguage)
  {
    MainPlanShape(Registry);
    MainPlanShape(Legacy);
    CdktfPlanShape(Registry, true, languages, languages);
    CdktfPlanShape(Legacy, true, languages, languages);
    forall s | s in Plan(languages, true) && s.directory.cdktfLanguage.Some?
      ensures s.check == FileCheck(s.directory.cdktfLanguage)
    {
      PlanParts(s, languages, true);
    }
  }

  /** Whatever the flag, the table holds the file check of every CDKTF data
      source and resource directory of every language, in both conventions. */
  lemma CdktfFileChecksInPlan(languages: seq<string>, ignoreMissing: bool)
    ensures forall c, language, kind :: language in languages && kind in {DataSource, Resource} ==>
      Step(Directory(c, kind, Some(language)), FileCheck(Some(language))) in Plan(languages, ignoreMissing)
  {
    forall c, language, kind | language in languages && kind in {DataSource, Resource}
      ensures Step(Directory(c, kind, Some(language)), FileCheck(Some(language))) in Plan(languages, ignoreMissing)
    {
      CdktfFileCheckRuns(c, ignoreMissing, languages, language, kind);
      var s := Step(Directory(c, kind, Some(language)), FileCheck(Some(language)));
      var m1, c1 := MainPlan(Registry), CdktfPlan(Registry, ignoreMissing, languages);
      var m2, c2 := MainPlan(Legacy), CdktfPlan(Legacy, ignoreMissing, languages);
      assert Plan(languages, ignoreMissing) == m1 + c1 + m2 + c2;
      if c == Registry {
        assert s in c1;
      } else {
        assert s in c2;
      }
    }
  }

  /** Whatever the flag, every CDKTF data source and resource directory of
      every language gets its file check, with that language. */
  lemma CdktfFileCheckRuns(c: Convention, ignoreMissing: bool, languages: seq<string>, language: string, kind: Kind)
    requires language in languages && kind in {DataSource, Resource}
    ensures Step(Directory(c, kind, Some(language)), FileCheck(Some(language))) in CdktfPlan(c, ignoreMissing, languages)
  {
    var i :| 0 <= i < |languages| && languages[i] == language;
    CdktfPlanContainsLanguage(c, ignoreMissing, languages, i);
    var b1 := Bucket(Directory(c, DataSource, Some(language)), !ignoreMissing, Some(language));
    var b2 := Bucket(Directory(c, Resource, Some(language)), !ignoreMissing, Some(language));
    assert b1[|b1| - 1] == Step(Directory(c, DataSource, Some(language)), FileCheck(Some(language)));
    assert b2[|b2| - 1] == Step(Directory(c, Resource, Some(language)), FileCheck(Some(language)));
    assert (b1 + b2)[|b1| - 1] == b1[|b1| - 1];
    assert (b1 + b2)[|b1| + |b2| - 1] == b2[|b2| - 1];
  }

  /** Without the flag, every CDKTF directory of every language gets its
      mismatch check before its file check. */
  lemma CdktfMismatchRunsUnlessIgnored(c: Convention, languages: seq<string>, language: string, kind: Kind)
    requires language in languages && kind in {DataSource, Resource}
    ensures Step(Directory(c, kind, Some(language)), Mismatch) in CdktfPlan(c, false, languages)
    ensures Step(Directory(c, kind, Some(language)), FileCheck(Some(language))) in CdktfPlan(c, false, languages)
  {
    CdktfLanguagePlanShape(c, false, language, languages);
    var i :| 0 <= i < |languages| && languages[i] == language;
    CdktfPlanContainsLanguage(c, false, languages, i);
    assert CdktfLanguagePlan(c, false, language)
        == [Step(Directory(c, DataSource, Some(language)), Mismatch), Step(Directory(c, DataSource, Some(language)), FileCheck(Some(language))),
            Step(Directory(c, Resource, Some(language)), Mismatch), Step(Directory(c, Resource, Some(language)), FileCheck(Some(language)))];
  }

  /** The plan of each language is a part of the CDKTF plan. */
  lemma {:induction false} CdktfPlanContainsLanguage(c: Convention, ignoreMissing: bool, languages: seq<string>, i: nat)
    requires i < |languages|
    ensures forall s :: s in CdktfLanguagePlan(c, ignoreMissing, languages[i]) ==> s in CdktfPlan(c, ignoreMissing, languages)
  {
    var n := |languages| - 1;
    if i < n {
      CdktfPlanContainsLanguage(c, ignoreMissing, languages[..n], i);
    }
  }

  /** Check: the validation of one documentation tree. */
  class Check {
    var options: CheckOptions

    /** NewCheck: nil options become the zero value; others are kept. */
    constructor (opts: Option<CheckOptions>)
      ensures opts.None? ==> options == ZeroCheckOptions
      ensures opts.Some? ==> options == opts.value
    {
      options := opts.GetOr(ZeroCheckOptions);
    }

    /** Check.Run: the structural checks abort the run; otherwise every
        directory of the table that is present is checked, all errors are
        kept, and the result is their sorted aggregate, or nil. */
    method Run(env: Env, directories: map<string, seq<string>>) returns (err: Option<seq<string>>)
      ensures var invalid := env.invalidDirectoriesCheck(directories);
        invalid != [] ==> err == Some(invalid)
      ensures var invalid, mixed := env.invalidDirectoriesCheck(directories), env.mixedDirectoriesCheck(directories);
        invalid == [] && mixed != [] ==> err == Some(mixed)
      ensures var invalid, mixed := env.invalidDirectoriesCheck(directories), env.mixedDirectoriesCheck(directories);
        var all := Collected(options, env, directories);
        invalid == [] && mixed == [] ==>
          && (err.None? <==> all == [])
          && (err.Some? ==> Sorted(err.value) && multiset(err.value) == multiset(all))
    {
      var invalid := env.invalidDirectoriesCheck(directories);
      if invalid != [] {
        return Some(invalid);
      }
      var mixed := env.mixedDirectoriesCheck(directories);
      if mixed != [] {
        return Some(mixed);
      }

      ghost var exec := Exec(options, env, directories);
      ExecRuns(options, env, directories);
      var result := RunConvention(env, directories, exec, Registry, []);
      result := RunCdktf(env, directories, exec, Registry, result);
      result := RunConvention(env, directories, exec, Legacy, result);
      result := RunCdktf(env, directories, exec, Legacy, result);
      PlanErrors(exec, env.names.cdktfLanguages, options.ignoreCdktfMissingFiles);

      if result == [] {
        return None;
      }
      return Some(SortErrors(result));
    }

    /** The mismatch check of one present directory. */
    method RunMismatch(env: Env, directories: map<string, seq<string>>, ghost exec: Step -> seq<string>, d: Directory)
      returns (errs: seq<string>)
      requires Runs(exec, options, env, directories)
      requires DirectoryKey(env.names, d) in directories
      ensures errs == exec(Step(d, Mismatch))
    {
      errs := env.fileMismatchCheck(MismatchOptions(options, d.kind), directories[DirectoryKey(env.names, d)]);
      assert exec(Step(d, Mismatch)) == ExecStep(options, env, directories, Step(d, Mismatch));
    }

    /** The file check of one present directory: the legacy resource and
        registry index checks are constructed from their options and run on
        every file; the other kinds are delegated. */
    method RunFileCheck(env: Env, directories: map<string, seq<string>>, ghost exec: Step -> seq<string>,
                        d: Directory, language: Option<string>) returns (errs: seq<string>)
      requires Runs(exec, options, env, directories)
      requires DirectoryKey(env.names, d) in directories
      ensures errs == exec(Step(d, FileCheck(language)))
    {
      var files := directories[DirectoryKey(env.names, d)];
      if d.convention == Legacy && d.kind == Resource {
        var c := LegacyResourceFile.NewLegacyResourceFileCheck(options.legacyResourceFile);
        errs := c.RunAll(env, files, language.GetOr(""));
      } else if d.convention == Registry && d.kind == Index {
        var c := RegistryIndexFile.NewRegistryIndexFileCheck(options.registryIndexFile);
        errs := c.RunAll(env, files);
      } else {
        errs := env.kindFileCheck(d.convention, d.kind, KindFileOptions(options, d.convention, d.kind), files, language);
      }
      assert exec(Step(d, FileCheck(language))) == ExecStep(options, env, directories, Step(d, FileCheck(language)));
    }

    /** One directory: when it is present, its mismatch check (if `mismatch`
        holds) and then its file check. */
    method RunBucket(env: Env, directories: map<string, seq<string>>, ghost exec: Step -> seq<string>,
                     d: Directory, mismatch: bool, language: Option<string>, before: seq<string>)
      returns (result: seq<string>)
      requires Runs(exec, options, env, directories)
      ensures result == before + ExecSteps(exec, Bucket(d, mismatch, language))
    {
      result := before;
      if DirectoryKey(env.names, d) in directories {
        if mismatch {
          var e := RunMismatch(env, directories, exec, d);
          if e != [] { result := result + e; }
        }
        var e := RunFileCheck(env, directories, exec, d, language);
        if e != [] { result := result + e; }
      } else {
        AbsentDirectoryNoErrors(exec, options, env, directories, Step(d, Mismatch));
        AbsentDirectoryNoErrors(exec, options, env, directories, Step(d, FileCheck(language)));
      }
      BucketErrors(exec, d, mismatch, language);
    }

    /** The six non-CDKTF directories of one convention, in the order data
        sources, ephemeral resources, functions, guides, index, resources. */
    method RunConvention(env: Env, directories: map<string, seq<string>>, ghost exec: Step -> seq<string>,
                         convention: Convention, before: seq<string>) returns (result: seq<string>)
      requires Runs(exec, options, env, directories)
      ensures result == before + ExecSteps(exec, MainPlan(convention))
    {
      var terraform := Some(FencedCodeBlockLanguageTerraform);
      result := RunBucket(env, directories, exec, Directory(convention, DataSource, None), true, terraform, before);
      result := RunBucket(env, directories, exec, Directory(convention, Ephemeral, None), true, terraform, result);
      result := RunBucket(env, directories, exec, Directory(convention, Function, None), true, None, result);
      result := RunBucket(env, directories, exec, Directory(convention, Guide, None), false, None, result);
      result := RunBucket(env, directories, exec, Directory(convention, Index, None), false, None, result);
      result := RunBucket(env, directories, exec, Directory(convention, Resource, None), true, terraform, result);
      MainPlanErrors(exec, convention, before);
    }

    /** One of the two loops over the CDKTF languages: the data source and
        resource directories of each language, mismatch check included
        unless missing CDKTF files are ignored. */
    method RunCdktf(env: Env, directories: map<string, seq<string>>, ghost exec: Step -> seq<string>,
                    convention: Convention, before: seq<string>) returns (result: seq<string>)
      requires Runs(exec, options, env, directories)
      ensures result == before + ExecSteps(exec, CdktfPlan(convention, options.ignoreCdktfMissingFiles, env.names.cdktfLanguages))
    {
      var languages := env.names.cdktfLanguages;
      var ignore := options.ignoreCdktfMissingFiles;
      result := before;
      for i := 0 to |languages|
        invariant result == before + ExecSteps(exec, CdktfPlan(convention, ignore, languages[..i]))
      {
        var language := languages[i];
        result := RunBucket(env, directories, exec, Directory(convention, DataSource, Some(language)), !ignore, Some(language), result);
        result := RunBucket(env, directories, exec, Directory(convention, Resource, Some(language)), !ignore, Some(language), result);
        CdktfPlanErrors(exec, convention, ignore, languages, i, before);
      }
      assert languages[..|languages|] == languages;
    }
  }
}
