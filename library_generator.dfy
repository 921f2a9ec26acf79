/**
 * The library generator: a Solidity library in a Foundry project or a
 * Rust/Stylus utility module in a Cargo project, written into the
 * `libraries` directory under the source directory. Like the generic
 * generator it replaces whatever file is at its path.
 */
module LibraryGeneration {
  import opened Errors
  import opened Contracts
  import opened Chars
  import opened FileSystem
  import opened Names
  import opened Languages
  import opened FileCreation
  import opened Projects
  import SolidityTemplates
  import StylusTemplates

  datatype LibraryGenerator = LibraryGenerator(
    project: ProjectType,
    language: Language,
    libraryName: string,
    pragma: Option<string>,
    license: Option<string>)

  /** The template a library is rendered from: always of type `Basic`, with the default pragma and licence for missing ones. */
  function SolidityTemplateOf(g: LibraryGenerator): (t: SolidityTemplates.SolidityTemplate)
    ensures t.contractName == g.libraryName && t.contractType == Basic
    ensures g.pragma.None? ==> t.pragma == DefaultPragma
    ensures g.license.None? ==> t.license == DefaultLicense
    ensures g.pragma.Some? ==> t.pragma == g.pragma.value
    ensures g.license.Some? ==> t.license == g.license.value
  {
    SolidityTemplates.SolidityTemplate(g.libraryName, Basic,
      OrDefault(g.pragma, DefaultPragma), OrDefault(g.license, DefaultLicense))
  }

  function StylusTemplateOf(g: LibraryGenerator): (t: StylusTemplates.StylusTemplate)
    ensures t.contractName == g.libraryName && t.contractType == Basic
  {
    StylusTemplates.StylusTemplate(g.libraryName, Basic)
  }

  /**
   * The library text. The Solidity template's library text is not part of
   * this model and comes in as `solidityLibrary`.
   */
  function LibraryText(g: LibraryGenerator, solidityLibrary: SolidityTemplates.SolidityTemplate -> string): string
  {
    match g.language
    case Solidity => solidityLibrary(SolidityTemplateOf(g))
    case RustStylus => StylusTemplates.GenerateLibrary(StylusTemplateOf(g))
  }

  /** A Rust/Stylus library's text names its module by the snake-case form of the library name. */
  lemma StylusLibraryNamesModule(g: LibraryGenerator, solidityLibrary: SolidityTemplates.SolidityTemplate -> string)
    requires g.language == RustStylus
    ensures Contains(LibraryText(g, solidityLibrary), StylusTemplates.SnakeName(g.libraryName))
  {
    StylusTemplates.LibraryNamesModule(StylusTemplateOf(g));
  }

  // ---------------------------------------------------------------------
  // Paths

  /** `src/libraries`, for either language. */
  function LibrariesDir(pt: ProjectType): (d: Path)
    ensures |d| == |SrcDir(pt)| + 1 && d[..|SrcDir(pt)|] == SrcDir(pt)
  {
    Child(SrcDir(pt), "libraries")
  }

  /** `<Name>.sol`, or `<name>.rs` with the name lower-cased for Rust/Stylus. */
  function LibraryFileName(g: LibraryGenerator): string
  {
    match g.language
    case Solidity => g.libraryName + ".sol"
    case RustStylus => ToLower(g.libraryName) + ".rs"
  }

  function LibraryPath(g: LibraryGenerator): (p: Path)
    ensures |p| == |SrcDir(g.project)| + 2 && p[..|p| - 1] == LibrariesDir(g.project)
  {
    Child(LibrariesDir(g.project), LibraryFileName(g))
  }

  /** Solidity libraries of different names never share a file. */
  lemma SolidityPathsDistinct(g: LibraryGenerator, h: LibraryGenerator)
    requires g.language == Solidity && h.language == Solidity && g.project == h.project
    requires g.libraryName != h.libraryName
    ensures LibraryPath(g) != LibraryPath(h)
  {
    var n, m := g.libraryName + ".sol", h.libraryName + ".sol";
    assert n[..|n| - 4] == g.libraryName && m[..|m| - 4] == h.libraryName;
    assert LibraryPath(g)[|SrcDir(g.project)| + 1] == n;
    assert LibraryPath(h)[|SrcDir(h.project)| + 1] == m;
  }

  /** Rust/Stylus library names that differ only in case share one file, so the later run replaces the earlier. */
  lemma StylusPathsFoldCase(g: LibraryGenerator, h: LibraryGenerator)
    requires g.language == RustStylus && h.language == RustStylus && g.project == h.project
    requires ToLower(g.libraryName) == ToLower(h.libraryName)
    ensures LibraryPath(g) == LibraryPath(h)
  {
  }

  // ---------------------------------------------------------------------
  // Generation

  /** `ensure_libraries_directory`: `create_dir_all` of `src/libraries`, its failure reported as `Other`. */
  method EnsureLibrariesDirectory(host: Host, pt: ProjectType) returns (r: Result<Unit>)
    modifies host
    ensures r.Ok? <==> old(host.DirsCreatable(LibrariesDir(pt)))
    ensures r.Ok? ==> host.dirs == old(host.dirs) + Ancestry(LibrariesDir(pt))
    ensures r.Err? ==> r.error == Other(("Failed " + "to " + "create " + "libraries " + "directory: ") + OsError(LibrariesDir(pt)))
    ensures old(host.dirs) <= host.dirs <= old(host.dirs) + Ancestry(LibrariesDir(pt))
    ensures host.files == old(host.files) && host.commands == old(host.commands)
    ensures old(host.Valid()) ==> host.Valid()
  {
    var dir := LibrariesDir(pt);
    r := host.CreateDirAll(dir);
    if r.Err? {
      r := Err(Other(("Failed " + "to " + "create " + "libraries " + "directory: ") + OsError(dir)));
    }
  }

  /** `create_library_file`: writes the text over whatever is at the path. */
  method CreateLibraryFile(host: Host, g: LibraryGenerator, content: string) returns (r: Result<Unit>)
    modifies host
    ensures r.Ok? <==> old(host.CanWrite(LibraryPath(g)))
    ensures r.Ok? ==> host.files == old(host.files)[LibraryPath(g) := content]
    ensures r.Err? ==> host.files == old(host.files) && r.error == Other(("Failed " + "to " + "write " + "library " + "file: ") + OsError(LibraryPath(g)))
    ensures host.dirs == old(host.dirs) && host.commands == old(host.commands)
    ensures old(host.Valid()) ==> host.Valid()
  {
    r := WriteFile(host, LibraryPath(g), content, ("Failed " + "to " + "write " + "library " + "file: "));
  }

  /**
   * `generate`: the name, the project's directories, `src/libraries`, then
   * the one write. A run that fails writes nothing; one that succeeds
   * leaves the library's text at its path and every other file as it was.
   * A valid name, directories that can be made and a library path that is
   * not a directory or protected make the run succeed, whether or not a
   * file is there already.
   */
  method Generate(host: Host, g: LibraryGenerator, solidityLibrary: SolidityTemplates.SolidityTemplate -> string)
    returns (r: Result<Unit>)
    modifies host
    ensures !ValidName(g.libraryName) ==>
      r == ValidateName("Library", AsOther, g.libraryName) &&
      host.files == old(host.files) && host.dirs == old(host.dirs)
    ensures r.Ok? ==> ValidName(g.libraryName)
    ensures r.Ok? ==> host.files == old(host.files)[LibraryPath(g) := LibraryText(g, solidityLibrary)]
    ensures r.Ok? ==> Ancestry(LibrariesDir(g.project)) <= host.dirs
    ensures r.Ok? ==> host.CanWrite(LibraryPath(g)) && LibraryPath(g) !in old(host.dirs)
    ensures r.Err? ==> host.files == old(host.files)
    ensures ValidName(g.libraryName) && old(DirsReady(host, g.project)) && old(host.DirsCreatable(LibrariesDir(g.project))) &&
            LibraryPath(g) !in old(host.dirs) + RunDirs(g.project) && LibraryPath(g) !in host.readOnly
            ==> r.Ok?
    ensures old(host.dirs) <= host.dirs <= old(host.dirs) + RunDirs(g.project) + Ancestry(LibrariesDir(g.project))
    ensures host.commands == old(host.commands)
    ensures old(host.Valid()) ==> host.Valid()
  {
    r := ValidateName("Library", AsOther, g.libraryName);
    if r.Err? { return; }
    ghost var files0, dirs0 := host.files, host.dirs;
    r := EnsureDirectories(host, g.project);
    if r.Err? { return; }
    if old(host.DirsCreatable(LibrariesDir(g.project))) {
      CreatableWithMoreDirs(host, files0, dirs0, LibrariesDir(g.project));
    }
    r := EnsureLibrariesDirectory(host, g.project);
    if r.Err? { return; }
    ghost var dir := LibrariesDir(g.project);
    assert dir == dir[..|dir|] && LibraryPath(g) !in Ancestry(dir);
    r := CreateLibraryFile(host, g, LibraryText(g, solidityLibrary));
  }
}
