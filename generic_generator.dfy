/**
 * The language-aware contract generator: a Solidity contract in a Foundry
 * project or a Rust/Stylus contract in a Cargo project. It checks the name
 * and the language's support for tests and scripts before touching
 * anything, and then replaces whatever files are at its paths.
 */
module GenericGeneration {
  import opened Errors
  import opened Contracts
  import opened Chars
  import opened FileSystem
  import opened Names
  import opened Languages
  import opened FileCreation
  import opened Dependencies
  import opened Projects
  import SolidityTemplates
  import StylusTemplates

  datatype GenericGenerator = GenericGenerator(
    project: ProjectType,
    language: Language,
    contractName: string,
    contractType: ContractType,
    withTest: bool,
    withScript: bool,
    pragma: Option<string>,
    license: Option<string>)

  const StylusTestUnsupported := "Test generation (--with-test) is not supported for Rust/Stylus projects. Use 'cargo test' instead."
  const StylusScriptUnsupported := "Script generation (--with-script) is not supported for Rust/Stylus projects. Use deployment tools like 'stylus deploy' instead."

  /** `validate_language_compatibility`: Rust/Stylus projects get neither a test nor a script. */
  function LanguageCompatibility(g: GenericGenerator): (r: Result<Unit>)
    ensures r.Ok? <==> g.language.Solidity? || (!g.withTest && !g.withScript)
    ensures g.language == RustStylus && g.withTest ==> r == Err(Other(StylusTestUnsupported))
    ensures g.language == RustStylus && !g.withTest && g.withScript ==> r == Err(Other(StylusScriptUnsupported))
  {
    if g.language == RustStylus && g.withTest then Err(Other(StylusTestUnsupported))
    else if g.language == RustStylus && g.withScript then Err(Other(StylusScriptUnsupported))
    else Ok(Unit)
  }

  /** The types the language's template can write (anything else makes it panic). */
  predicate Writable(g: GenericGenerator)
  {
    match g.language
    case Solidity => SolidityTemplates.Renderable(g.contractType)
    case RustStylus => StylusTemplates.Supported(g.contractType)
  }

  /** The Solidity template, with the default pragma and licence for missing ones. */
  function SolidityTemplateOf(g: GenericGenerator): SolidityTemplates.SolidityTemplate
  {
    SolidityTemplates.SolidityTemplate(g.contractName, g.contractType,
      OrDefault(g.pragma, DefaultPragma), OrDefault(g.license, DefaultLicense))
  }

  function StylusTemplateOf(g: GenericGenerator): StylusTemplates.StylusTemplate
  {
    StylusTemplates.StylusTemplate(g.contractName, g.contractType)
  }

  function ContractText(g: GenericGenerator): string
    requires Writable(g)
  {
    match g.language
    case Solidity => SolidityTemplates.GenerateContract(SolidityTemplateOf(g))
    case RustStylus => StylusTemplates.GenerateContract(StylusTemplateOf(g))
  }

  function TestText(g: GenericGenerator): string
  {
    match g.language
    case Solidity => SolidityTemplates.GenerateTest(SolidityTemplateOf(g))
    case RustStylus => StylusTemplates.GenerateTest(StylusTemplateOf(g))
  }

  function ScriptText(g: GenericGenerator): string
  {
    match g.language
    case Solidity => SolidityTemplates.GenerateScript(SolidityTemplateOf(g))
    case RustStylus => StylusTemplates.GenerateScript(StylusTemplateOf(g))
  }

  /** A Solidity contract with no pragma or licence given opens with the default ones. */
  lemma DefaultHeader(g: GenericGenerator)
    requires g.language == Solidity && SolidityTemplates.Renderable(g.contractType)
    requires g.pragma.None? && g.license.None?
    ensures SolidityTemplates.Header(DefaultLicense, DefaultPragma) <= ContractText(g)
  {
  }

  /**
   * In either language the contract text names the contract. A Solidity
   * test and script deploy it with its constructor arguments; the Rust/Stylus
   * test and deployment notes name it.
   */
  lemma TextsNameContract(g: GenericGenerator)
    requires Writable(g)
    ensures Contains(ContractText(g), g.contractName)
    ensures g.language == Solidity ==>
      Contains(TestText(g), "new " + g.contractName + SolidityTemplates.ConstructorArgs(g.contractType)) &&
      Contains(ScriptText(g), "new " + g.contractName + SolidityTemplates.ConstructorArgs(g.contractType))
    ensures g.language == RustStylus ==> Contains(TestText(g), g.contractName) && Contains(ScriptText(g), g.contractName)
  {
    match g.language
    case Solidity =>
      SolidityTemplates.ContractNamesItself(SolidityTemplateOf(g));
      SolidityTemplates.TestAndScriptInstantiate(SolidityTemplateOf(g));
    case RustStylus =>
      StylusTemplates.ContractNamesItself(StylusTemplateOf(g));
      StylusTemplates.TextsNameContract(StylusTemplateOf(g));
  }

  // ---------------------------------------------------------------------
  // Paths

  /** `src/<Name>.sol`, or `src/<Name>.rs` for Rust/Stylus. */
  function ContractFileName(g: GenericGenerator): (n: string)
    ensures g.language == Solidity ==> n == g.contractName + ".sol"
    ensures g.language == RustStylus ==> n == g.contractName + ".rs"
  {
    g.contractName + (if g.language == Solidity then ".sol" else ".rs")
  }

  /** `<Name>.t.sol`, or `<name>_test.rs` with the name lower-cased for Rust/Stylus. */
  function TestFileName(g: GenericGenerator): (n: string)
    ensures g.language == Solidity ==> n == g.contractName + ".t.sol"
    ensures g.language == RustStylus ==> n == ToLower(g.contractName) + "_test.rs"
  {
    if g.language == Solidity then g.contractName + ".t.sol" else ToLower(g.contractName) + "_test.rs"
  }

  /** `Deploy<Name>.s.sol`, or deployment notes `<name>_deploy.md` for Rust/Stylus. */
  function ScriptFileName(g: GenericGenerator): (n: string)
    ensures g.language == Solidity ==> n == "Deploy" + g.contractName + ".s.sol"
    ensures g.language == RustStylus ==> n == ToLower(g.contractName) + "_deploy.md"
  {
    if g.language == Solidity then "Deploy" + g.contractName + ".s.sol" else ToLower(g.contractName) + "_deploy.md"
  }

  function ContractPath(g: GenericGenerator): Path { Child(SrcDir(g.project), ContractFileName(g)) }

  function TestPath(g: GenericGenerator): Path { Child(TestDir(g.project), TestFileName(g)) }

  function ScriptPath(g: GenericGenerator): Path { Child(ScriptDir(g.project), ScriptFileName(g)) }

  /** The files a successful run writes, in the language's template. */
  function Writes(g: GenericGenerator): seq<FileWrite>
    requires Writable(g)
  {
    Plan(FileWrite(ContractPath(g), ContractText(g)), FileWrite(TestPath(g), TestText(g)), FileWrite(ScriptPath(g), ScriptText(g)),
         g.withTest, g.withScript)
  }

  // ---------------------------------------------------------------------
  // Generation

  method CreateContractFile(host: Host, g: GenericGenerator, content: string) returns (r: Result<Unit>)
    modifies host
    ensures r.Ok? <==> old(host.CanWrite(ContractPath(g)))
    ensures r.Ok? ==> host.files == old(host.files)[ContractPath(g) := content]
    ensures r.Err? ==> host.files == old(host.files) && r.error == Other(("Failed " + "to " + "write " + "contract " + "file: ") + OsError(ContractPath(g)))
    ensures host.dirs == old(host.dirs) && host.commands == old(host.commands)
    ensures old(host.Valid()) ==> host.Valid()
  {
    r := WriteFile(host, ContractPath(g), content, ("Failed " + "to " + "write " + "contract " + "file: "));
  }

  method CreateTestFile(host: Host, g: GenericGenerator, content: string) returns (r: Result<Unit>)
    modifies host
    ensures r.Ok? <==> old(host.CanWrite(TestPath(g)))
    ensures r.Ok? ==> host.files == old(host.files)[TestPath(g) := content]
    ensures r.Err? ==> host.files == old(host.files) && r.error == Other(("Failed " + "to " + "write " + "test " + "file: ") + OsError(TestPath(g)))
    ensures host.dirs == old(host.dirs) && host.commands == old(host.commands)
    ensures old(host.Valid()) ==> host.Valid()
  {
    r := WriteFile(host, TestPath(g), content, ("Failed " + "to " + "write " + "test " + "file: "));
  }

  /**
   * `create_script_file`: a Solidity script written in place, or for
   * Rust/Stylus the scripts directory made first and the notes written into it.
   */
  method CreateScriptFile(host: Host, g: GenericGenerator, content: string) returns (r: Result<Unit>)
    modifies host
    ensures g.language == Solidity ==> host.dirs == old(host.dirs)
    ensures old(host.dirs) <= host.dirs <= old(host.dirs) + Ancestry(ScriptDir(g.project))
    ensures g.language == Solidity ==> (r.Ok? <==> old(host.CanWrite(ScriptPath(g))))
    ensures g.language == Solidity && r.Err? ==> r.error == Other(("Failed " + "to " + "write " + "script " + "file: ") + OsError(ScriptPath(g)))
    ensures g.language == RustStylus && !old(host.DirsCreatable(ScriptDir(g.project))) ==>
      r == Err(Other(("Failed " + "to " + "create " + "scripts " + "directory: ") + OsError(ScriptDir(g.project))))
    ensures g.language == RustStylus && r.Ok? ==> ScriptDir(g.project) in host.dirs || |ScriptDir(g.project)| == 0
    ensures r.Err? ==> !old(host.CanWrite(ScriptPath(g))) || (g.language == RustStylus && !old(host.DirsCreatable(ScriptDir(g.project))))
    ensures r.Ok? ==> host.CanWrite(ScriptPath(g))
    ensures r.Ok? ==> host.files == old(host.files)[ScriptPath(g) := content]
    ensures r.Err? ==> host.files == old(host.files)
    ensures host.commands == old(host.commands)
    ensures old(host.Valid()) ==> host.Valid()
  {
    match g.language
    case Solidity =>
      r := WriteFile(host, ScriptPath(g), content, ("Failed " + "to " + "write " + "script " + "file: "));
    case RustStylus =>
      var dir := ScriptDir(g.project);
      r := host.CreateDirAll(dir);
      if r.Err? {
        return Err(Other(("Failed " + "to " + "create " + "scripts " + "directory: ") + OsError(dir)));
      }
      assert |dir| > 0 ==> dir == dir[..|dir|];
      assert ScriptPath(g) !in Ancestry(dir);
      r := WriteFile(host, ScriptPath(g), content, ("Failed " + "to " + "write " + "deployment " + "instructions" + ": "));
  }

  /**
   * The writes after preparation, stopping at the first failure; existing
   * files are replaced. A run stops only at a path that cannot be written
   * or at Rust/Stylus deployment notes, which the language check refuses
   * before this step.
   */
  method CreateFiles(host: Host, g: GenericGenerator, contract: string, test: string, script: string)
    returns (r: Result<Unit>, ghost done: nat, ghost ws: seq<FileWrite>)
    modifies host
    ensures ws == Plan(FileWrite(ContractPath(g), contract), FileWrite(TestPath(g), test), FileWrite(ScriptPath(g), script),
                       g.withTest, g.withScript)
    ensures done <= |ws| && host.files == Apply(old(host.files), ws[..done])
    ensures r.Ok? <==> done == |ws|
    ensures done < |ws| ==>
      !old(host.CanWrite(ws[done].path)) ||
      (g.language == RustStylus && g.withScript && done == |ws| - 1)
    ensures done >= 1 ==> old(host.CanWrite(ContractPath(g)))
    ensures g.withTest && done >= 2 ==> old(host.CanWrite(TestPath(g)))
    ensures g.withScript && r.Ok? ==>
      if g.language == Solidity then old(host.CanWrite(ScriptPath(g))) else host.CanWrite(ScriptPath(g))
    ensures old(host.CanWrite(ContractPath(g))) && (g.withTest ==> old(host.CanWrite(TestPath(g)))) &&
            (g.withScript ==> g.language == Solidity && old(host.CanWrite(ScriptPath(g))))
            ==> r.Ok?
    ensures g.language == Solidity || !g.withScript ==> host.dirs == old(host.dirs)
    ensures old(host.dirs) <= host.dirs <= old(host.dirs) + Ancestry(ScriptDir(g.project))
    ensures host.commands == old(host.commands)
    ensures old(host.Valid()) ==> host.Valid()
  {
    var plan := Plan(FileWrite(ContractPath(g), contract), FileWrite(TestPath(g), test), FileWrite(ScriptPath(g), script),
                     g.withTest, g.withScript);
    ws := plan;
    done := 0;
    ghost var files0 := host.files;
    assert plan[..0] == [];
    r := CreateContractFile(host, g, contract);
    if r.Err? { return; }
    ApplyStep(files0, plan, 0);
    done := 1;
    if g.withTest {
      r := CreateTestFile(host, g, test);
      if r.Err? { return; }
      ApplyStep(files0, plan, 1);
      done := 2;
    }
    if g.withScript {
      r := CreateScriptFile(host, g, script);
      if r.Err? { return; }
      ApplyStep(files0, plan, |plan| - 1);
      done := |plan|;
    }
    assert plan[..done] == plan;
  }

  /** Everything a run needs before its writes can succeed. */
  predicate Ready(host: Host, g: GenericGenerator)
    reads host
  {
    ValidName(g.contractName) && LanguageCompatibility(g).Ok? &&
    DirsReady(host, g.project) && InstallCanSucceed(host, g.project, g.contractType)
  }

  /**
   * A path writable once a successful preparation has made the project's
   * directories, starting from the directories `dirs0`: its directory is
   * there or is one preparation makes, and it is no directory preparation
   * may make.
   */
  predicate WritableFrom(host: Host, dirs0: set<Path>, g: GenericGenerator, p: Path)
  {
    |p| > 0 && p[..|p| - 1] in dirs0 + ReadyDirs(g.project) && p !in dirs0 + RunDirs(g.project) && p !in host.readOnly
  }

  /** A path writable once a successful preparation has made the project's directories. */
  predicate WritableOnceReady(host: Host, g: GenericGenerator, p: Path)
    reads host
  {
    WritableFrom(host, host.dirs, g, p)
  }

  /** The steps before any file is written: the name, the language check, the directories, the dependencies. */
  method Prepare(host: Host, g: GenericGenerator) returns (r: Result<Unit>)
    modifies host
    ensures !ValidName(g.contractName) ==>
      r == ValidateName("Contract", AsOther, g.contractName) &&
      host.dirs == old(host.dirs) && host.commands == old(host.commands)
    ensures ValidName(g.contractName) && LanguageCompatibility(g).Err? ==>
      r == LanguageCompatibility(g) && host.dirs == old(host.dirs) && host.commands == old(host.commands)
    ensures r.Ok? ==> ValidName(g.contractName) && LanguageCompatibility(g).Ok?
    ensures old(Ready(host, g)) ==> r.Ok? && old(host.dirs) + ReadyDirs(g.project) <= host.dirs
    ensures host.commands != old(host.commands) ==>
      ValidName(g.contractName) && LanguageCompatibility(g).Ok? &&
      (g.project.Foundry? ==> old(DirsReady(host, g.project))) &&
      (g.project.Cargo? ==> Exists(host.State(), SrcDir(g.project)) && Exists(host.State(), TestDir(g.project)))
    ensures old(host.dirs) <= host.dirs <= old(host.dirs) + RunDirs(g.project)
    ensures r.Ok? && g.project.Foundry? ==> host.dirs == old(host.dirs) + RunDirs(g.project)
    ensures g.project.Cargo? ==> (ScriptDir(g.project) in host.dirs <==> old(ScriptDir(g.project) in host.dirs))
    ensures DependencyNeed(g.contractType) == NoDependency ==> host.commands == old(host.commands)
    ensures host.commands == old(host.commands) ||
      (InstallCommand(g.project, DependencyNeed(g.contractType) == UpgradeableLibrary).Some? &&
       host.commands == old(host.commands) + [InstallCommand(g.project, DependencyNeed(g.contractType) == UpgradeableLibrary).value])
    ensures host.files == old(host.files)
    ensures old(host.Valid()) ==> host.Valid()
  {
    r := ValidateName("Contract", AsOther, g.contractName);
    if r.Err? { return; }
    r := LanguageCompatibility(g);
    if r.Err? { return; }
    r := EnsureDirectories(host, g.project);
    if r.Err? { return; }
    r := CheckAndInstallDependencies(host, g.project, g.contractType);
  }

  /** The directories a successful preparation leaves make a path written once ready writable. */
  lemma WritableAfterPrepare(host: Host, dirs0: set<Path>, g: GenericGenerator, p: Path)
    requires dirs0 + ReadyDirs(g.project) <= host.dirs <= dirs0 + RunDirs(g.project)
    ensures WritableFrom(host, dirs0, g, p) ==> host.CanWrite(p)
  {
  }

  /**
   * A file of the project written after a successful preparation was
   * writable once ready: its directory was there or is one preparation makes,
   * and it is no directory preparation may make.
   */
  lemma WrittenAfterPrepare(host: Host, dirs0: set<Path>, g: GenericGenerator, d: Path, name: string)
    requires d == SrcDir(g.project) || d == TestDir(g.project) || d == ScriptDir(g.project)
    requires dirs0 <= host.dirs <= dirs0 + RunDirs(g.project)
    requires g.project.Foundry? ==> host.dirs == dirs0 + RunDirs(g.project)
    requires g.project.Cargo? ==> (ScriptDir(g.project) in host.dirs <==> ScriptDir(g.project) in dirs0)
    ensures host.CanWrite(Child(d, name)) ==> WritableFrom(host, dirs0, g, Child(d, name))
  {
    var p := Child(d, name);
    if host.CanWrite(p) && g.project.Cargo? {
      var root := g.project.cargo.root;
      assert p[..|p| - 1] == d;
      forall x | x in RunDirs(g.project) ensures |x| <= |root| + 1 { }
    }
  }

  /**
   * `generate`. Whatever the outcome, the files are the old ones with the
   * first `done` writes applied; a Rust/Stylus run writes only its contract.
   */
  method Generate(host: Host, g: GenericGenerator) returns (r: Result<Unit>, ghost done: nat)
    requires Writable(g)
    modifies host
    ensures !ValidName(g.contractName) ==>
      r == ValidateName("Contract", AsOther, g.contractName) &&
      host.files == old(host.files) && host.dirs == old(host.dirs) && host.commands == old(host.commands)
    ensures ValidName(g.contractName) && LanguageCompatibility(g).Err? ==>
      r == LanguageCompatibility(g) &&
      host.files == old(host.files) && host.dirs == old(host.dirs) && host.commands == old(host.commands)
    ensures done <= |Writes(g)| && host.files == Apply(old(host.files), Writes(g)[..done])
    ensures r.Ok? <==> done == |Writes(g)|
    ensures g.language == RustStylus ==> done <= 1
    ensures old(Ready(host, g)) && old(WritableOnceReady(host, g, ContractPath(g))) ==> done >= 1
    ensures old(Ready(host, g)) && old(WritableOnceReady(host, g, ContractPath(g))) &&
            (g.withTest ==> old(WritableOnceReady(host, g, TestPath(g)))) &&
            (g.withScript ==> old(WritableOnceReady(host, g, ScriptPath(g))))
            ==> r.Ok?
    ensures done >= 1 ==> old(WritableOnceReady(host, g, ContractPath(g)))
    ensures g.withTest && done >= 2 ==> old(WritableOnceReady(host, g, TestPath(g)))
    ensures g.withScript && r.Ok? ==> old(WritableOnceReady(host, g, ScriptPath(g)))
    ensures old(host.dirs) <= host.dirs <= old(host.dirs) + RunDirs(g.project)
    ensures DependencyNeed(g.contractType) == NoDependency ==> host.commands == old(host.commands)
    ensures host.commands == old(host.commands) ||
      (InstallCommand(g.project, DependencyNeed(g.contractType) == UpgradeableLibrary).Some? &&
       host.commands == old(host.commands) + [InstallCommand(g.project, DependencyNeed(g.contractType) == UpgradeableLibrary).value])
    ensures old(host.Valid()) ==> host.Valid()
  {
    done := 0;
    r := Prepare(host, g);
    if r.Err? { return; }
    r, done := WriteFromTemplate(host, g, old(host.dirs));
  }

  /**
   * The rest of `generate` once preparation succeeded: the language's
   * template, then its files. Starting from the directories `dirs0` that
   * preparation found, the files written are exactly the planned ones whose
   * paths were writable once ready, up to the first that was not.
   */
  method WriteFromTemplate(host: Host, g: GenericGenerator, ghost dirs0: set<Path>) returns (r: Result<Unit>, ghost done: nat)
    requires Writable(g) && LanguageCompatibility(g).Ok?
    requires dirs0 <= host.dirs <= dirs0 + RunDirs(g.project)
    requires g.project.Foundry? ==> host.dirs == dirs0 + RunDirs(g.project)
    requires g.project.Cargo? ==> (ScriptDir(g.project) in host.dirs <==> ScriptDir(g.project) in dirs0)
    modifies host
    ensures done <= |Writes(g)| && host.files == Apply(old(host.files), Writes(g)[..done])
    ensures r.Ok? <==> done == |Writes(g)|
    ensures g.language == RustStylus ==> done <= 1
    ensures done >= 1 ==> WritableFrom(host, dirs0, g, ContractPath(g))
    ensures g.withTest && done >= 2 ==> WritableFrom(host, dirs0, g, TestPath(g))
    ensures g.withScript && r.Ok? ==> WritableFrom(host, dirs0, g, ScriptPath(g))
    ensures dirs0 + ReadyDirs(g.project) <= old(host.dirs) && WritableFrom(host, dirs0, g, ContractPath(g)) ==> done >= 1
    ensures dirs0 + ReadyDirs(g.project) <= old(host.dirs) && WritableFrom(host, dirs0, g, ContractPath(g)) &&
            (g.withTest ==> WritableFrom(host, dirs0, g, TestPath(g))) &&
            (g.withScript ==> WritableFrom(host, dirs0, g, ScriptPath(g)))
            ==> r.Ok?
    ensures host.dirs == old(host.dirs) && host.commands == old(host.commands)
    ensures old(host.Valid()) ==> host.Valid()
  {
    if dirs0 + ReadyDirs(g.project) <= host.dirs {
      WritableAfterPrepare(host, dirs0, g, ContractPath(g));
      WritableAfterPrepare(host, dirs0, g, TestPath(g));
      WritableAfterPrepare(host, dirs0, g, ScriptPath(g));
    }
    WrittenAfterPrepare(host, dirs0, g, SrcDir(g.project), ContractFileName(g));
    WrittenAfterPrepare(host, dirs0, g, TestDir(g.project), TestFileName(g));
    WrittenAfterPrepare(host, dirs0, g, ScriptDir(g.project), ScriptFileName(g));
    ghost var ws;
    r, done, ws := CreateFiles(host, g, ContractText(g), TestText(g), ScriptText(g));
  }
}
