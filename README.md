# Gramr scaffolding core, modelled in Dafny

Gramr generates smart-contract source files. It writes Solidity for Foundry projects and Rust for
Stylus (Arbitrum) Cargo projects. It has two front ends:

- the `gramr new` command line;
- the `wotan` interactive wizard.

Both gather a request: a resource type, a name, a language, and for contracts a contract type made
of an optional token standard (ERC20, ERC721, ERC1155, each optionally upgradeable) and a list of
OpenZeppelin token extensions. A generator then does the following:

1. Validates the name.
2. Finds the project. Foundry projects are found by `foundry.toml` and Cargo projects by `Cargo.toml`.
3. Makes the project's directories.
4. Installs the OpenZeppelin library when the contract needs it and the project lacks it.
5. Writes the contract, test, script or library text rendered from a template.

The model covers:

- **Request interpretation.** Language flags, extension-name parsing, the contract-type resolver
  with its compatibility table, and the `new` dispatch.
- **Templates.** The Solidity templates (with the multi-inheritance composer) and the Stylus
  templates, as text: every `format!` is `Text.Format` over the template's literal pieces.
- **Project detection and dependency installation.** Done over a model of the file system and of
  external commands.
- **Generators.** Contract, generic, library, script, test and config.
- **The wizard's state machine.** Its answers are given as parameters.

Pure decisions are functions. The generators' steps are methods on a `FileSystem.Host` object. The
host holds:

- a map of files;
- a set of directories;
- a log of commands run;
- fixed sets of paths that cannot be written and commands that fail.

Each generator method is specified by the list of file writes its run performs (`FileCreation.Plan`,
instantiated as each generator's `Writes`), by how the host's files, directories and commands end up,
and by the host conditions under which the run succeeds.

## Model

| member | source | states |
|---|---|---|
| Languages.FromFlags | lib/src/language.rs:10-21 | a language is chosen exactly when one of the two flags is set; neither flag and both flags each give their own error |
| Names.AllAllowed | lib/src/generators/contract.rs:80-84 | the character scan accepts exactly when every character is a letter, digit or underscore |
| Names.CheckName | lib/src/generators/contract.rs:67-91 | no problem exactly for valid names; empty, no leading letter and bad character are each reported exactly in their case, checked in that order |
| Names.ValidateName | lib/src/generators/generic.rs:79-97 | Ok exactly for valid names; otherwise the first broken rule, reported as InvalidContractName or as Other depending on the generator |
| Names.NameExamples | lib/src/generators/contract.rs:265-366 | examples from the source's tests: a valid name, the empty name, a leading digit and a hyphen each get the verdict those tests expect |
| FileCreation.CreateNewFile | lib/src/generators/contract.rs:147-162 | succeeds exactly when the path is free and writable; an existing path is refused with FileExists and left untouched; success adds exactly that file |
| FileCreation.WriteFile | lib/src/generators/generic.rs:178-191 | the write succeeds exactly when the path is writable, replaces that file's content and nothing else, and reports failure under the caller's message |
| Foundry.FoundryRoot | lib/src/foundry/detector.rs:41-53 | the found root is the nearest ancestor-or-self holding foundry.toml; failure means no directory up to the file-system root holds one |
| Foundry.FindFoundryRoot | lib/src/foundry/detector.rs:41-53 | the upward loop returns exactly the nearest-marker root of the specification function |
| Foundry.Layout | lib/src/foundry/detector.rs:25-34 | a project's src, test and script directories are those children of its root |
| Foundry.Detect | lib/src/foundry/detector.rs:16-35 | without forge the error is FoundryNotInstalled; with forge detection succeeds exactly when a root is found, giving that root's layout |
| Foundry.DetectFindsNearestRoot | lib/src/foundry/detector.rs:16-53 | run from any directory below a marked root with no nearer marker, detection returns that root's layout |
| Foundry.ProbesIndependent | lib/src/foundry/detector.rs:62-70 | the probes `HasOpenZeppelin` and `HasOpenZeppelinUpgradeable` look at lib/openzeppelin-contracts and lib/openzeppelin-contracts-upgradeable under the root, so installing one library never changes the other probe |
| Foundry.EnsureDirectories | lib/src/foundry/detector.rs:55-60 | succeeds exactly when src, test and script can all be created, and then all three with their ancestors exist; only those directories are ever added; files and commands are untouched; already-present directories make it a no-op |
| Foundry.CreatableAfter | lib/src/foundry/detector.rs:55-60 | making one directory chain does not change whether any other chain can be made |
| Foundry.Install | lib/src/foundry/detector.rs:72-104 | exactly one forge install command is run; it fails exactly when that command fails, reporting its standard error as ForgeCommandError |
| Projects.CargoDetect | lib/src/project.rs:101-113 | a Cargo project is found exactly when the working directory holds Cargo.toml, rooted there; otherwise ProjectNotFound |
| Projects.CargoDetectDoesNotClimb | lib/src/project.rs:101-113 | from a subdirectory without its own Cargo.toml detection fails even though the parent is a Cargo project |
| Projects.CargoHasOpenZeppelin | lib/src/project.rs:151-158 | the library is present exactly when the manifest is a readable file mentioning openzeppelin-stylus |
| Projects.CargoHasOpenZeppelinUpgradeable | lib/src/project.rs:178-181 | the upgradeable probe answers exactly as the plain probe |
| Projects.ManifestExamples | lib/src/project.rs:330-344 | examples from the source's tests: a manifest naming the package is detected; a missing manifest and one without the package are not |
| Projects.CargoInstallUpgradeable | lib/src/project.rs:183-188 | installing upgradeable contracts into a Cargo project always fails with a not-yet-supported message |
| Projects.CargoInstall | lib/src/project.rs:160-176 | exactly one cargo add command is run; it fails exactly when that command fails, reporting its standard error |
| Projects.CreateIfMissing | lib/src/project.rs:121-136 | an existing directory is left as is; a creatable one is made and the call succeeds; a failure is reported under the directory's role |
| Projects.CargoEnsureDirectories | lib/src/project.rs:121-136 | succeeds with src and tests present whenever both can be created; on any success they exist; the scripts directory is never created; only those chains are added |
| Projects.NotAnAncestor | lib/src/project.rs:121-136 | making one child of the root never makes a sibling child |
| Projects.DetectedLayouts | lib/src/project.rs:31-50 | a detected project keeps sources in src, tests in test or tests and scripts in script or scripts under its root, by kind |
| Projects.Detect | lib/src/project.rs:82-93 | Solidity detects a Foundry project and Rust/Stylus a Cargo project, passing on each detector's error |
| Projects.StylusDetectionIgnoresForge | lib/src/project.rs:82-93 | whether forge is installed does not affect Rust/Stylus detection |
| Projects.EnsureDirectories | lib/src/project.rs:24-29 | each kind makes its own directories and no others; a Foundry project succeeds exactly when its three directories can be made; whenever the needed directories can be made the call succeeds and they exist; a Cargo project never gains a scripts directory |
| Projects.InstallOpenZeppelin | lib/src/project.rs:59-64 | exactly the project's install command is run and its failure is reported in the project's error form |
| Projects.InstallOpenZeppelinUpgradeable | lib/src/project.rs:73-78 | Foundry runs forge install of the upgradeable library; Cargo runs nothing and returns the unsupported error |
| Projects.InstallCommand | lib/src/project.rs:59-78 | an install runs a command in the project root unless it is an upgradeable install into a Cargo project |
| Dependencies.DependencyNeed | lib/src/generators/generic.rs:117-176 | plain token standards need OpenZeppelin, upgradeable ones the upgradeable library, an extended base what its base needs, and nothing else needs anything |
| Dependencies.DependencyOfExtendedBase | lib/src/generators/generic.rs:143-172 | adding extensions never changes what must be installed |
| Dependencies.NothingForPlainContracts | lib/src/generators/generic.rs:117-176 | basic, interface and abstract contracts install nothing |
| Dependencies.PendingInstall | lib/src/generators/generic.rs:117-176 | an install is due exactly when the probe for the needed library fails, and names which library; the probe is `Projects.HasOpenZeppelin` or `HasOpenZeppelinUpgradeable`, that is Foundry's directory probe or Cargo's manifest probe by project kind |
| Dependencies.CheckAndInstallDependencies | lib/src/generators/generic.rs:117-176 | nothing is run when the probe finds the library; otherwise exactly the one install is run and its outcome reported; a Cargo upgradeable need fails without running anything; when no library is needed or its install command exists and does not fail, the call succeeds |
| Gramr.ParseExtension | lib/src/lib.rs:93-120 | a name parses exactly when its lower-cased form is in the table; an unknown name is reported as given |
| Gramr.ParseAll | lib/src/lib.rs:88-124 | a parsed list has one extension per name |
| Gramr.ParseExtensions | lib/src/lib.rs:88-124 | the push loop returns exactly the list parse, stopping at the first unknown name |
| Gramr.ParseAllSucceeds | lib/src/lib.rs:88-124 | when every name parses, the list parses to each name's extension in position |
| Gramr.ParseAllFailsAtFirst | lib/src/lib.rs:88-124 | the list's error is the error of its first unknown name |
| Gramr.ParseAllOkIff | lib/src/lib.rs:88-124 | a list parses exactly when each of its names parses |
| Gramr.FirstFailure | lib/src/lib.rs:88-124 | one unknown name anywhere fails the whole list |
| Gramr.ParseIgnoresCase | lib/src/lib.rs:94 | a name and its lower-case form parse alike |
| Gramr.KeywordParses | lib/src/lib.rs:95-115 | every keyword of the table parses back to its own extension |
| Gramr.ParsedNameIsKeyword | lib/src/lib.rs:95-115 | a name parses to an extension only when its lower-case form is that extension's keyword |
| Gramr.ParserRange | lib/src/lib.rs:95-115 | the parser only produces fungible extensions and the five listed non-fungible and multi-token ones |
| Gramr.MixedCaseNamesParse | lib/src/lib.rs:273-283 | upper- and mixed-case names parse to the same extensions |
| Gramr.PaddedNameFails | lib/src/lib.rs:339-344 | names with surrounding blanks are not trimmed and fail |
| Gramr.ParseListExamples | lib/src/lib.rs:221-337 | examples from the source's tests: the empty list parses to the empty list and duplicates are kept |
| Gramr.NewBuilder | lib/src/lib.rs:34-42 | a new builder is a basic contract with the default pragma 0.8.30 and licence UNLICENSED |
| Gramr.WithContractType | lib/src/lib.rs:44-48 | sets the type and keeps every other field |
| Gramr.WithPragma | lib/src/lib.rs:50-54 | sets the pragma and keeps every other field |
| Gramr.WithLicense | lib/src/lib.rs:56-60 | sets the licence and keeps every other field |
| Gramr.Build | lib/src/lib.rs:62-71 | the built text is the Solidity template's contract for the builder's fields, opens with its licence and pragma, and contains the contract's name |
| Gramr.SettersCommute | lib/src/lib.rs:44-60 | the order of the setter calls does not matter |
| Gramr.DefaultBuildHeader | lib/src/lib.rs:34-71 | a default builder's contract opens with the default header and names the contract |
| SolidityTemplates.Render | lib/src/templates/solidity.rs:164-176 | every rendered template opens with the licence and pragma lines |
| SolidityTemplates.RenderContains | lib/src/templates/solidity.rs:164-358 | every value filled into a template appears in its text |
| SolidityTemplates.UppercaseLetters | lib/src/templates/solidity.rs:647-654 | the result is upper-case letters only, at most as long as the name; a name without capitals gives nothing and an all-capital name gives itself |
| SolidityTemplates.GetSymbol | lib/src/templates/solidity.rs:647-654 | the symbol is the first up-to-three capitals of the name |
| SolidityTemplates.SymbolOfCamelCaseName | lib/src/templates/solidity.rs:647-654 | example from the source's symbol tests: MyNewToken gives MNT |
| SolidityTemplates.UppercaseOfNewToken | lib/src/templates/solidity.rs:647-654 | example from the source's symbol tests: the capitals of NewToken are NT |
| SolidityTemplates.SymbolTruncated | lib/src/templates/solidity.rs:647-654 | example from the source's symbol tests: only the first three capitals are kept |
| SolidityTemplates.SymbolOfSingleCapital | lib/src/templates/solidity.rs:647-654 | example from the source's symbol tests: Token gives T |
| SolidityTemplates.SymbolOfLowercaseName | lib/src/templates/solidity.rs:647-654 | example from the source's symbol tests: a name without capitals gives an empty symbol |
| SolidityTemplates.ConvertOnlyCrossPairs | lib/src/templates/solidity.rs:463-482 | conversion changes an extension exactly for the six cross-standard pairs, and then yields the base's own standard |
| SolidityTemplates.ConvertIdempotent | lib/src/templates/solidity.rs:463-482 | converting twice is converting once |
| SolidityTemplates.ImportLine | lib/src/templates/solidity.rs:484-628 | an import statement is never empty |
| SolidityTemplates.ExtensionImports | lib/src/templates/solidity.rs:484-628 | an extension's imports include its own extension file |
| SolidityTemplates.ExtensionInherit | lib/src/templates/solidity.rs:484-628 | an extension's inheritance entry starts with its own name |
| SolidityTemplates.ExtensionFunctions | lib/src/templates/solidity.rs:484-628 | an extension adds function text exactly when it brings its own functions |
| SolidityTemplates.ExtensionComponents | lib/src/templates/solidity.rs:484-628 | every extension contributes an import and an inheritance entry and no initializer; functions exactly for those that have them |
| SolidityTemplates.ConvertedComponents | lib/src/templates/solidity.rs:417-461 | one well-formed component per extension |
| SolidityTemplates.ConvertedComponentsAt | lib/src/templates/solidity.rs:445-460 | entry i belongs to extension i after conversion to the base's standard |
| SolidityTemplates.NonEmptyBounded | lib/src/templates/solidity.rs:445-460 | filtering never adds entries and keeps only non-empty ones |
| SolidityTemplates.NonEmptyKeepsAll | lib/src/templates/solidity.rs:445-460 | a list without empty entries is kept whole |
| SolidityTemplates.NonEmptyDropsAll | lib/src/templates/solidity.rs:445-460 | a list of empty entries is dropped entirely |
| SolidityTemplates.PushIfNonEmpty | lib/src/templates/solidity.rs:445-460 | a component part is appended exactly when it is not empty |
| SolidityTemplates.BuildInheritanceComponents | lib/src/templates/solidity.rs:417-461 | the collecting loop returns exactly the composition of base, Ownable and converted extensions |
| SolidityTemplates.InheritanceOrder | lib/src/templates/solidity.rs:417-461 | the inheritance list is the base, then Ownable, then one entry per extension in request order |
| SolidityTemplates.InheritanceTokenAt | lib/src/templates/solidity.rs:417-461 | the entry after Ownable at position i is extension i's token after conversion |
| SolidityTemplates.ImportCount | lib/src/templates/solidity.rs:417-461 | the import list has one line per extension after the base's and Ownable's |
| SolidityTemplates.NoInitializers | lib/src/templates/solidity.rs:417-461 | the composed initializer text is always empty |
| SolidityTemplates.FunctionBlocksBounded | lib/src/templates/solidity.rs:417-461 | at most one non-empty function block per extension |
| SolidityTemplates.NoFunctionsWithoutBodies | lib/src/templates/solidity.rs:417-461 | when no converted extension brings functions the composed contract has none |
| SolidityTemplates.GenerateStateVariables | lib/src/templates/solidity.rs:630-645 | the loop adds the token-id counter at most once, exactly when some requested extension needs it |
| SolidityTemplates.CounterIgnoresConversion | lib/src/templates/solidity.rs:630-645 | the counter is decided on the extensions as requested, so a generic burnable on ERC721 does not add it |
| SolidityTemplates.ConstructorParams | lib/src/templates/solidity.rs:363-366 | the constructor takes an initial supply exactly for fungible bases |
| SolidityTemplates.ConstructorCall | lib/src/templates/solidity.rs:368-382 | plain bases pass the name and symbol (ERC1155 its URI), a non-fungible base initialises the wrapper exactly when one is requested, other bases call nothing |
| SolidityTemplates.ConstructorBody | lib/src/templates/solidity.rs:384-387 | only a plain fungible base mints in its constructor |
| SolidityTemplates.ConstructorClause | lib/src/templates/solidity.rs:389-402 | the constructor clause always ends with the Ownable initialisation by the sender |
| SolidityTemplates.GenerateMultiInheritanceContract | lib/src/templates/solidity.rs:360-415 | the composed contract opens with its header and carries its name, imports, inheritance list, constructor clause and extension functions |
| SolidityTemplates.TemplateArgs | lib/src/templates/solidity.rs:178-222 | token contracts are filled with the name and derived symbol, other contracts with the name alone |
| SolidityTemplates.ContractPieces | lib/src/templates/solidity.rs:164-358 | every single-standard template opens with the licence and pragma holes and has one hole per argument |
| SolidityTemplates.GenerateContract | lib/src/templates/solidity.rs:66-79 | every generated contract opens with the template's licence and pragma lines |
| SolidityTemplates.ContractNamesItself | lib/src/templates/solidity.rs:66-79 | every generated contract names the contract |
| SolidityTemplates.TokenContractsCarrySymbol | lib/src/templates/solidity.rs:178-222 | fungible and non-fungible contracts carry the derived symbol |
| SolidityTemplates.ConstructorArgs | lib/src/templates/solidity.rs:81-162 | the test and script deploy with an initial supply exactly for fungible bases, plain or extended, and with no arguments otherwise |
| SolidityTemplates.GenerateTest | lib/src/templates/solidity.rs:81-119 | the test opens with the licence and pragma lines |
| SolidityTemplates.GenerateScript | lib/src/templates/solidity.rs:121-162 | the script opens with the licence and pragma lines |
| SolidityTemplates.TestAndScriptInstantiate | lib/src/templates/solidity.rs:81-162 | test and script both deploy the contract as `new <name><constructor arguments of the contract type>` |
| StylusTemplates.Symbol | lib/src/templates/stylus.rs:289-296 | the Stylus symbol is the Solidity symbol rule: at most three capitals |
| StylusTemplates.ContractKind | lib/src/templates/stylus.rs:244-316 | an extended base writes its base standard's contract and any other type its own standard's |
| StylusTemplates.ExtensionsIgnored | lib/src/templates/stylus.rs:260-287 | the text `GenerateContract` writes for an extended base never depends on the requested extensions |
| StylusTemplates.PlainBaseWithExtensions | lib/src/templates/stylus.rs:260-287 | for a plain base with extensions `GenerateContract` writes the plain base's own contract |
| StylusTemplates.UpgradeableBaseFallsBack | lib/src/templates/stylus.rs:260-269 | an upgradeable base under extensions writes the plain standard's contract |
| StylusTemplates.PlainBase | lib/src/templates/stylus.rs:260-269 | the fallback of an upgradeable base is the plain base of the same standard |
| StylusTemplates.ContractsCarryNameAndSymbol | lib/src/templates/stylus.rs:16-242 | all four contracts name the contract and the token contracts carry the symbol |
| StylusTemplates.ContractNamesItself | lib/src/templates/stylus.rs:300-316 | every contract `GenerateContract` writes names the contract, and a fungible or non-fungible one carries its symbol |
| StylusTemplates.TextsNameContract | lib/src/templates/stylus.rs:318-510 | the test, the deployment notes, the library, the interface and the abstract text each name the contract |
| StylusTemplates.NameOnlyTexts | lib/src/templates/stylus.rs:318-510 | `GenerateTest`, `GenerateScript` (deployment notes), `GenerateLibrary`, `GenerateInterface` and `GenerateAbstract` depend only on the name |
| StylusTemplates.LibraryNamesModule | lib/src/templates/stylus.rs:363-474 | the library's utility module is named by the snake-case form of the name |
| StylusTemplates.UpperCount | lib/src/templates/stylus.rs:364-373 | the count of capitals is at most the length |
| StylusTemplates.SnakeFrom | lib/src/templates/stylus.rs:364-373 | snake-casing leaves no capitals and, past the first character, adds one underscore per capital |
| StylusTemplates.SnakeName | lib/src/templates/stylus.rs:364-373 | the module name has no capitals, starts with the lower-cased first character and is one character longer per later capital |
| StylusTemplates.SnakeOfLowerCase | lib/src/templates/stylus.rs:364-373 | text without capitals is its own snake-case form |
| StylusTemplates.SnakeIdempotent | lib/src/templates/stylus.rs:364-373 | snake-casing twice is snake-casing once |
| StylusTemplates.SnakeOfLibSuffix | lib/src/templates/stylus.rs:364-373 | example from the source's snake-case tests: a later Lib becomes _lib |
| StylusTemplates.SnakeOfThLib | lib/src/templates/stylus.rs:364-373 | example from the source's snake-case tests: thLib after a leading capital becomes th_lib |
| StylusTemplates.SnakeOfCamelCase | lib/src/templates/stylus.rs:364-373 | example from the source's snake-case tests: MathLib becomes math_lib |
| StylusTemplates.SnakeOfCapitals | lib/src/templates/stylus.rs:364-373 | example from the source's snake-case tests: ABC becomes a_b_c |
| FileCreation.Plan | lib/src/generators/contract.rs:53-61 | a run writes the contract first, then the test and the script exactly when they are asked for, so the last write is the script when one is asked for |
| Errors.OrDefault | lib/src/generators/generic.rs:53-54 | a given value is kept and a missing one replaced by the default |
| ContractGeneration.PathsDistinct | lib/src/generators/contract.rs:147-196 | the contract, test and script files never collide |
| ContractGeneration.Prepare | lib/src/generators/contract.rs:38-43 | a bad name is rejected before anything changes; uncreatable directories give an I/O error before any install; with a valid name, creatable directories and an install that cannot fail it succeeds; success means all project directories exist; at most the one needed install runs and no file is written |
| ContractGeneration.CreateFiles | lib/src/generators/contract.rs:53-61 | the files written are the longest prefix of the plan whose paths are free and writable: each written path was free and writable, the run stops at the first that is not, and it succeeds exactly when all are written; no existing file is changed; an existing contract file stops the run with FileExists before any write |
| ContractGeneration.Generate | lib/src/generators/contract.rs:38-65 | a bad name changes nothing; the files end as the old ones plus a prefix of the planned writes, each written path free and writable once the project directories exist; when the name, directories and install are fine, that prefix stops exactly at the first planned path that is taken or unwritable, so the run succeeds whenever all planned paths are free and writable; existing files are never changed; only project directories and the one needed install are added |
| ContractGeneration.BuilderGenerate | lib/src/lib.rs:73-86 | on success exactly the built contract text is added as a new file; on failure no file changes; a bad name changes nothing; when the name, directories and install are fine it succeeds exactly when the contract path is free and writable |
| GenericGeneration.LanguageCompatibility | lib/src/generators/generic.rs:99-115 | Rust/Stylus requests succeed exactly without test and script; a test request gets the test message and a script-only request the script message |
| GenericGeneration.DefaultHeader | lib/src/generators/generic.rs:48-56 | a Solidity contract with no pragma or licence given opens with the default ones |
| GenericGeneration.TextsNameContract | lib/src/generators/generic.rs:48-64 | `ContractText` names the contract in either language; a Solidity `TestText` and `ScriptText` deploy it as `new <name><constructor arguments>`, and the Rust/Stylus ones name it |
| GenericGeneration.ContractFileName | lib/src/generators/generic.rs:178-191 | the contract file is Name.sol for Solidity and Name.rs for Rust/Stylus |
| GenericGeneration.TestFileName | lib/src/generators/generic.rs:193-213 | the test file is Name.t.sol for Solidity and the lower-cased name_test.rs for Rust/Stylus |
| GenericGeneration.ScriptFileName | lib/src/generators/generic.rs:215-245 | the script is DeployName.s.sol for Solidity and the lower-cased name_deploy.md notes for Rust/Stylus |
| GenericGeneration.CreateContractFile | lib/src/generators/generic.rs:178-191 | the contract file is written, replacing any old one, exactly when its path is writable |
| GenericGeneration.CreateTestFile | lib/src/generators/generic.rs:193-213 | the test file is written, replacing any old one, exactly when its path is writable |
| GenericGeneration.CreateScriptFile | lib/src/generators/generic.rs:215-245 | a Solidity script is written in place exactly when its path is writable; Rust/Stylus notes first need the scripts directory, whose creation failure is reported; on success the path was writable once that directory existed; a failure means the path is unwritable or the directory could not be made |
| GenericGeneration.CreateFiles | lib/src/generators/generic.rs:66-74 | the files written are a prefix of the plan, each at a path that was writable (the Rust/Stylus notes once their directory existed); the run succeeds exactly when all are written; a stop means the next planned path was unwritable; writable paths for every asked-for file make the run succeed |
| GenericGeneration.Prepare | lib/src/generators/generic.rs:42-46 | the name is checked first, then the language; either failure changes nothing; with a valid name, compatible language, creatable directories and an install that cannot fail it succeeds with those directories present; a Foundry success adds exactly the project's directory chains and a Cargo project never gains a scripts directory; no file is written and at most the one needed install runs, and only after the earlier checks passed |
| GenericGeneration.Generate | lib/src/generators/generic.rs:42-77 | a bad name or incompatible language changes nothing; the files end as the old ones plus a prefix of the planned writes, all of them exactly on success, and each written path was writable once the directories exist; a Rust/Stylus run writes only its contract; when the earlier steps can succeed the contract is written if its path is writable once the directories exist, and the run succeeds if every asked-for path is |
| GenericGeneration.WriteFromTemplate | lib/src/generators/generic.rs:48-76 | after a successful preparation the files written are a prefix of the plan in the language's template, each at a path writable once ready; with the ready directories present a writable contract path is written and writable paths for every asked-for file make the run succeed; directories and commands are untouched |
| LibraryGeneration.SolidityTemplateOf | lib/src/generators/library.rs:40-47 | a library is rendered as a basic template of its name with the given or default pragma and licence |
| LibraryGeneration.StylusTemplateOf | lib/src/generators/library.rs:49-54 | a Rust/Stylus library is rendered as a basic template of its name |
| LibraryGeneration.StylusLibraryNamesModule | lib/src/generators/library.rs:49-54 | a Rust/Stylus library's text names its module in snake case |
| LibraryGeneration.LibrariesDir | lib/src/generators/library.rs:82-92 | libraries live in a child of the source directory |
| LibraryGeneration.LibraryPath | lib/src/generators/library.rs:94-116 | a library file sits directly in the libraries directory |
| LibraryGeneration.SolidityPathsDistinct | lib/src/generators/library.rs:94-116 | Solidity libraries of different names never share a file |
| LibraryGeneration.StylusPathsFoldCase | lib/src/generators/library.rs:94-116 | Rust/Stylus libraries whose names differ only in case share one file |
| LibraryGeneration.EnsureLibrariesDirectory | lib/src/generators/library.rs:82-92 | the libraries directory is made exactly when it can be, and a failure is reported |
| LibraryGeneration.CreateLibraryFile | lib/src/generators/library.rs:94-116 | the library file is written, replacing any old one, exactly when its path is writable |
| LibraryGeneration.Generate | lib/src/generators/library.rs:33-60 | a bad name changes nothing; success leaves the library text at its path and every other file as it was, and means that path is writable (not a directory, not protected, in an existing directory); failure writes nothing; no command runs; a valid name with creatable project and libraries directories and a writable library path succeeds |
| ScriptGeneration.ScriptContent | lib/src/generators/script.rs:79-100 | the script opens with the licence and pragma lines and declares a contract of its name deriving from Script |
| ScriptGeneration.ScriptPath | lib/src/generators/script.rs:62-66 | a script file sits directly in the project's script directory |
| ScriptGeneration.PathsDistinct | lib/src/generators/script.rs:62-66 | scripts of different names never share a file |
| ScriptGeneration.Generate | lib/src/generators/script.rs:28-77 | a bad name changes nothing; an existing script is refused with FileExists; success adds exactly the new script; a valid run on a free writable path succeeds; success means the script path was free and writable once the project directories exist |
| TestGeneration.TestContent | lib/src/generators/test.rs:79-103 | the test opens with the licence and pragma lines and declares a contract of its name deriving from Test |
| TestGeneration.TestPath | lib/src/generators/test.rs:62-66 | a test file sits directly in the project's test directory |
| TestGeneration.PathsDistinct | lib/src/generators/test.rs:62-66 | tests of different names never share a file |
| TestGeneration.Generate | lib/src/generators/test.rs:28-77 | a bad name changes nothing; an existing test is refused with FileExists; success adds exactly the new test; a valid run on a free writable path succeeds; success means the test path was free and writable once the project directories exist |
| ConfigGeneration.Generate | lib/src/generators/config.rs:25-28 | config generation always fails with an Other error quoting the name |
| NewCommand.BaseCount | cli/src/commands/new.rs:152-155 | counts the base flags: none exactly when no flag is set, one exactly when a single flag is set |
| NewCommand.BaseType | cli/src/commands/new.rs:192-201 | the chosen base is Basic exactly without a base flag, upgradeable exactly when asked, and of the flagged standard |
| NewCommand.CompatibleIff | cli/src/commands/new.rs:216-349 | the table `IsCompatible` holds exactly when the extension is of the token base's standard or one of the six rewritten pairs; nothing fits any other base |
| NewCommand.CompatibleConvertsToNative | cli/src/commands/new.rs:216-349 | whatever passes the check reaches the template as an extension of the base's own standard |
| NewCommand.ValidateExtensions | cli/src/commands/new.rs:216-349 | passes exactly when every extension fits, otherwise reports the first one that does not |
| NewCommand.NothingFitsBasic | cli/src/commands/new.rs:216-349 | any extension on a basic contract is reported |
| NewCommand.DetermineContractType | cli/src/commands/new.rs:143-214 | several bases, upgradeable without a base and upgradeable Rust/Stylus are refused in that order; past those checks, no extensions gives the flagged base, an unknown extension name its parse error, extensions without a base their error, and with a base the result succeeds exactly when every extension is compatible, otherwise with the validation error; every success yields the flagged base, or that base with the parsed extensions, all compatible |
| NewCommand.NamesParsedBeforeBaseCheck | cli/src/commands/new.rs:143-214 | an unknown extension name is reported even without a base flag |
| NewCommand.ExtensionsNeedBase | cli/src/commands/new.rs:143-214 | known extension names with no base flag are refused |
| NewCommand.IncompatibleExtensionReported | cli/src/commands/new.rs:143-214 | with otherwise valid flags the first incompatible extension is the error |
| NewCommand.Dispatch | cli/src/commands/new.rs:26-139 | unknown resources are refused; contracts go to the generic generator with the resolved type; other resources refuse contract-only flags (abstract allows section markers); Stylus scripts and tests get their own errors; otherwise each of library, script, test, interface, abstract and config is handed to its own generator with the request's name, pragma and licence (config with its name alone) |
| NewCommand.ExecuteNew | cli/src/commands/new.rs:7-141 | the language is decided first, then the project, then the resource dispatch, each error passed on |
| NewCommand.ScriptAndTestFindFoundry | cli/src/commands/new.rs:56-93 | the Foundry-only errors for scripts and tests can never be reached |
| NewCommand.ContractHandoff | cli/src/commands/new.rs:26-45 | a successful contract request hands over the resolved type, the name, the pragma, the licence and the test and script flags as given |
| Wizard.ValidateInput | wotan/src/wizard.rs:113-127 | the wizard accepts exactly the valid names, with one message per broken rule |
| Wizard.WizardAgreesWithGenerators | wotan/src/wizard.rs:113-127 | the wizard accepts exactly the names the generators accept |
| Wizard.UpgradeMapping | wotan/src/wizard.rs:188-194 | an unchanged standard, or its upgradeable form of the same family when asked |
| Wizard.UpgradeMappingMatchesFlags | wotan/src/wizard.rs:188-194 | the wizard's choice equals the command line's choice from the same flags |
| Wizard.ParseExtension | wotan/src/wizard.rs:259-287 | a menu name parses only for a token standard and to an extension of that standard; otherwise unknown extension |
| Wizard.MenuEntriesParse | wotan/src/wizard.rs:210-287 | every entry of a standard's extension menu (`Menu`, wizard.rs:211-234) parses |
| Wizard.ParseIffMenu | wotan/src/wizard.rs:210-287 | a name parses exactly when it is on the standard's menu `Menu` |
| Wizard.ParseInjective | wotan/src/wizard.rs:259-287 | different menu names give different extensions |
| Wizard.ParsedIsCompatible | wotan/src/wizard.rs:259-287 | what the wizard picks passes the command line's compatibility check, plain or upgradeable |
| Wizard.CommandLineReadsMenu | lib/src/lib.rs:93-120 | the command-line parser reads each wizard menu name as tabulated |
| Wizard.WizardVersusCommandLine | wotan/src/wizard.rs:259-287 | the wizard's reading is the command line's after conversion, except votes on ERC721 |
| Wizard.FungibleAgrees | wotan/src/wizard.rs:259-287 | on ERC20 the two front ends agree on every menu name |
| Wizard.NonFungibleAgrees | wotan/src/wizard.rs:259-287 | on ERC721 they agree except votes, which the wizard reads as ERC721Votes |
| Wizard.MultiTokenAgrees | wotan/src/wizard.rs:259-287 | on ERC1155 they agree on every menu name |
| Wizard.Kept | wotan/src/wizard.rs:248-253 | the kept extensions are at most as many as the picks |
| Wizard.KeptStep | wotan/src/wizard.rs:248-253 | one more pick adds its extension exactly when it parses |
| Wizard.MenuPicksAllKept | wotan/src/wizard.rs:248-253 | picks from the menu are all kept, position by position |
| Wizard.ParsedPicksAllKept | wotan/src/wizard.rs:248-253 | picks that all parse are all kept, position by position |
| Wizard.KeptCompatible | wotan/src/wizard.rs:248-253 | everything kept is of the chosen standard and compatible with it, plain or upgradeable |
| Wizard.WizardState.constructor | wotan/src/wizard.rs:20-33 | a fresh state is Solidity with no type, no extensions, no test or script, and the default pragma and licence |
| Wizard.WizardState.ChooseExtensions | wotan/src/wizard.rs:209-257 | the parsed picks are appended in order and nothing else changes |
| Wizard.WizardState.ConfigureContract | wotan/src/wizard.rs:155-207 | the type is the standard, made upgradeable only for a Solidity token standard when asked; extensions are added only for a Solidity token standard when asked |
| Wizard.WizardState.ScriptOrTestCheck | wotan/src/wizard.rs:297-305 | scripts and tests are allowed exactly for Solidity |
| Wizard.WizardState.ConfigureGenerationOptions | wotan/src/wizard.rs:307-321 | the test and script answers are taken only for Solidity contracts; nothing else changes |
| Wizard.WizardState.ConfigureSolidityOptions | wotan/src/wizard.rs:323-360 | the pragma and licence change only for Solidity and only when asked; nothing else changes |

## Left out

- Console output is not modelled: coloured messages, success summaries and the welcome text are left out.
- Interactive prompts are parameters. The wizard's answers (resource type, name, language,
  standard, picks, yes/no questions) are inputs to the `WizardState` methods. `ContractWizard.run`,
  which asks the questions in turn, is not modelled.
- The wizard's choose_resource_type and choose_language are left out. They only map menu
  positions to constants.
- The wizard's project handling is left out: ensure_foundry_project, initialize_foundry_project
  (`forge init`), handle_initial_files (deleting the Counter example) and confirm_generation.
  They run external programs and edit files outside the generators.
- The wotan binary's dispatch to the generators (wotan/src/main.rs) is not modelled. Its generator
  calls are the same ones the command line makes.
- The cli main, argument parsing and the other subcommands (cli/src/main.rs) are not part of this
  model. nothungup/src/main.rs (the installer) is not part of this model.
- The interface and abstract-contract generators are modelled only as the request `ExecuteNew`
  hands them (`Handoff`). Their Solidity texts are not in solidity.rs.
- LibraryGeneration.Generate: the Solidity library text is a parameter. `SolidityTemplate`'s
  `generate_library` is not part of this model.
- The working directory and whether `forge` is on the search path are parameters (`cwd`, `hasForge`).
- Operating-system errors are not modelled as the OS reports them. A failed write or directory
  creation reports a fixed description of the path (`OsError`) in the source's message.
- A failing command's standard error comes from the host's fixed table of failures.
- The files that `forge install` and `cargo add` themselves write are not modelled. An install is
  recorded as the command it runs.
- Case mapping and character classes are ASCII only. Rust's `to_lowercase` and `is_alphabetic`
  also cover other Unicode letters.
- The Solidity template's own contract-type enumeration (lib/src/templates/solidity.rs:1-15) has no Interface or
  Abstract variant. The model uses the library's shared `ContractType` (lib/src/templates/mod.rs:9-23) and excludes
  those two with `SolidityTemplates.Renderable`.
- Panics become preconditions: the Stylus template on upgradeable, Interface and Abstract types, and the
  wizard menu's `unreachable!` (`MenuBase`).
- `anyhow` errors in the wizard are modelled as `Other` with the same message.
- ContractGeneration.Generate, GenericGeneration.Generate and GenericGeneration.WriteFromTemplate:
  the number of files written is a ghost out-parameter. It is used only to state the outcome, and callers get only `r`.
- GenericGeneration.CreateFiles and GenericGeneration.Generate: when a Rust/Stylus run asks for a
  script, the stop at the notes file is not tied to a cause. The language check refuses that
  request before any file is written, so the case never arises from `Generate`.
- SolidityTemplates.GenerateContract, GenerateTest, GenerateScript: their postconditions state the
  header only. The rest of the text is the template itself, and the properties of what it contains
  are the separate lemmas listed above.
