/** The checks this model does not define, and the constants it does not fix.
    Each is a field of `Env`, so every property proved holds for any
    behaviour of them. */
module Collaborators {
  import opened Wrappers
  import opened Files

  datatype Kind = DataSource | Ephemeral | Function | Guide | Index | Resource

  datatype Convention = Legacy | Registry

  /** The settings of a per-kind check that is not part of this model
      (FileMismatchOptions, RegistryDataSourceFileOptions, ...). */
  datatype KindOptions = KindOptions(settings: map<string, string>)

  /** The settings of the contents check; only the provider name is
      touched by the checks modelled here. */
  datatype ContentsOptions = ContentsOptions(providerName: string, settings: map<string, string>)

  /** The directory-name constants and the CDKTF language list. */
  datatype DirectoryNames = DirectoryNames(
    registryIndex: string,
    registryDataSources: string,
    registryEphemerals: string,
    registryFunctions: string,
    registryGuides: string,
    registryResources: string,
    legacyIndex: string,
    legacyDataSources: string,
    legacyEphemerals: string,
    legacyFunctions: string,
    legacyGuides: string,
    legacyResources: string,
    cdktfIndex: string,
    cdktfLanguages: seq<string>)

  /** Everything outside the modelled code: the file system, the directory
      names, and the checks whose code is not part of this model.  A check
      returning `[]` or `None` passed. */
  datatype Env = Env(
    fs: FileSystem,
    names: DirectoryNames,
    invalidDirectoriesCheck: map<string, seq<string>> -> seq<string>,
    mixedDirectoriesCheck: map<string, seq<string>> -> seq<string>,
    isValidCdktfDirectory: string -> bool,
    legacyFileExtensionCheck: string -> Option<string>,
    registryFileExtensionCheck: string -> Option<string>,
    fileMismatchCheck: (Option<KindOptions>, seq<string>) -> seq<string>,
    kindFileCheck: (Convention, Kind, Option<KindOptions>, seq<string>, Option<string>) -> seq<string>,
    contentsCheck: (ContentsOptions, string, string, Option<string>) -> Option<string>)

  /** markdown.FencedCodeBlockLanguageTerraform */
  const FencedCodeBlockLanguageTerraform: string := "terraform"

  /** The stages of a per-file check and the words that name them in its errors. */
  datatype Stage = Extension | Size | Read | FrontMatterStage | Contents

  function StageDescription(stage: Stage): string {
    match stage
    case Extension => "error checking file extension"
    case Size => "error checking file size"
    case Read => "error reading file"
    case FrontMatterStage => "error checking file frontmatter"
    case Contents => "error checking file contents"
  }

  /** The error a per-file check returns: the path, the stage, the cause. */
  function StageError(path: string, stage: Stage, cause: string): string {
    path + ": " + StageDescription(stage) + ": " + cause
  }
}
