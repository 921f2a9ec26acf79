/**
 * The `new` command: resolving the requested contract type from the base
 * flags, the `--upgradeable` flag and the extension names, checking each
 * extension against the base, and dispatching a resource request to the
 * generator that writes it.
 */
module NewCommand {
  import opened Errors
  import opened Contracts
  import opened Languages
  import opened FileSystem
  import opened Projects
  import Gramr
  import SolidityTemplates
  import GenericGeneration
  import LibraryGeneration
  import ScriptGeneration
  import TestGeneration

  // ---------------------------------------------------------------------
  // Contract type

  /** How many of `--oz-erc20`, `--oz-erc721`, `--oz-erc1155` are set. */
  function BaseCount(erc20: bool, erc721: bool, erc1155: bool): (n: nat)
    ensures n <= 3
    ensures n == 0 <==> !erc20 && !erc721 && !erc1155
    ensures n == 1 <==> (erc20 && !erc721 && !erc1155) || (!erc20 && erc721 && !erc1155) || (!erc20 && !erc721 && erc1155)
  {
    (if erc20 then 1 else 0) + (if erc721 then 1 else 0) + (if erc1155 then 1 else 0)
  }

  /** The base chosen by at most one base flag; `--upgradeable` needs a base flag. */
  function BaseType(erc20: bool, erc721: bool, erc1155: bool, upgradeable: bool): (t: ContractType)
    requires BaseCount(erc20, erc721, erc1155) <= 1
    requires upgradeable ==> BaseCount(erc20, erc721, erc1155) == 1
    ensures t == Basic <==> BaseCount(erc20, erc721, erc1155) == 0
    ensures IsUpgradeableBase(t) <==> upgradeable
    ensures IsPlainBase(t) <==> !upgradeable && BaseCount(erc20, erc721, erc1155) == 1
    ensures erc20 ==> FamilyOf(t) == Some(Fungible)
    ensures erc721 ==> FamilyOf(t) == Some(NonFungible)
    ensures erc1155 ==> FamilyOf(t) == Some(MultiToken)
  {
    if erc20 then (if upgradeable then ERC20Upgradeable else ERC20)
    else if erc721 then (if upgradeable then ERC721Upgradeable else ERC721)
    else if erc1155 then (if upgradeable then ERC1155Upgradeable else ERC1155)
    else Basic
  }

  /** `validate_extensions_compatibility`'s table, pair by pair. */
  predicate IsCompatible(base: ContractType, e: TokenExtension)
  {
    match base
    case ERC20 | ERC20Upgradeable =>
      e in {ERC20Permit, ERC20Burnable, ERC20Capped, ERC20Pausable, ERC20Votes, ERC20Wrapper,
            ERC20FlashMint, ERC20TemporaryApproval, ERC20Bridgeable, ERC1363, ERC4626}
    case ERC721 | ERC721Upgradeable =>
      e in {ERC721Pausable, ERC721Burnable, ERC721Consecutive, ERC721URIStorage, ERC721Votes,
            ERC721Royalty, ERC721Wrapper, ERC721Enumerable}
      || e in {ERC20Burnable, ERC20Pausable, ERC20Wrapper}
    case ERC1155 | ERC1155Upgradeable =>
      e in {ERC1155Pausable, ERC1155Burnable, ERC1155Supply, ERC1155URIStorage}
      || e in {ERC20Burnable, ERC20Pausable, ERC721URIStorage}
    case _ => false
  }

  /**
   * The table in one sentence: an extension fits a token base when it is
   * written for the base's standard or is one of the six pairs the template
   * rewrites; nothing fits any other base.
   */
  lemma CompatibleIff(base: ContractType, e: TokenExtension)
    ensures IsCompatible(base, e) <==>
      FamilyOf(base).Some? && (NativeFamily(e) == FamilyOf(base).value || SolidityTemplates.IsCrossPair(base, e))
  {
  }

  /** Whatever passes the check reaches the template as an extension of the base's own standard. */
  lemma CompatibleConvertsToNative(base: ContractType, e: TokenExtension)
    requires IsCompatible(base, e)
    ensures NativeFamily(SolidityTemplates.ConvertExtension(base, e)) == FamilyOf(base).value
  {
    SolidityTemplates.ConvertOnlyCrossPairs(base, e);
  }

  function IncompatibleMessage(e: TokenExtension, base: ContractType): string
  {
    "Extension " + ExtensionName(e) + (" is " + "not " + "compatible " + "with " + "base " + "type ") + ContractTypeName(base)
  }

  /** The check: the first extension that does not fit the base is reported. */
  function ValidateExtensions(base: ContractType, es: seq<TokenExtension>): (r: Result<Unit>)
    ensures r.Ok? <==> forall i :: 0 <= i < |es| ==> IsCompatible(base, es[i])
    ensures r.Err? ==>
      exists k :: (0 <= k < |es| && !IsCompatible(base, es[k]) &&
                   (forall j :: 0 <= j < k ==> IsCompatible(base, es[j])) &&
                   r.error == Other(IncompatibleMessage(es[k], base)))
    decreases |es|
  {
    if |es| == 0 then Ok(Unit)
    else if !IsCompatible(base, es[0]) then Err(Other(IncompatibleMessage(es[0], base)))
    else
      var r := ValidateExtensions(base, es[1..]);
      if r.Err? then
        var k :| 0 <= k < |es| - 1 && !IsCompatible(base, es[1..][k]) &&
          (forall j :: 0 <= j < k ==> IsCompatible(base, es[1..][j])) &&
          r.error == Other(IncompatibleMessage(es[1..][k], base));
        assert !IsCompatible(base, es[k + 1]) && forall j :: 0 <= j < k + 1 ==> IsCompatible(base, es[j]);
        r
      else
        assert forall i :: 0 <= i < |es| - 1 ==> es[1..][i] == es[i + 1];
        r
  }

  /** Nothing fits a contract without a token base. */
  lemma NothingFitsBasic(es: seq<TokenExtension>)
    requires |es| > 0
    ensures ValidateExtensions(Basic, es) == Err(Other(IncompatibleMessage(es[0], Basic)))
  {
  }

  const MultipleBasesMessage := "Cannot use multiple base token types together (--oz-erc20, --oz-erc721, --oz-erc1155)"
  const UpgradeableNeedsBaseMessage := "Must specify a base token type (--oz-erc20, --oz-erc721, or --oz-erc1155) when using --upgradeable"
  const StylusUpgradeableMessage := "Upgradeable contracts are not yet supported for Rust/Stylus. OpenZeppelin Stylus library doesn't include upgradeable patterns yet."
  const ExtensionsNeedBaseMessage := "Must specify a base token type (--oz-erc20, --oz-erc721, or --oz-erc1155) when using --extensions"

  /**
   * `determine_contract_type`. The checks run in this order: several bases,
   * `--upgradeable` without a base, `--upgradeable` for Rust/Stylus, the
   * extension names, extensions without a base, and last the compatibility
   * of each extension.
   */
  function DetermineContractType(erc20: bool, erc721: bool, erc1155: bool, upgradeable: bool,
                                 extensions: seq<string>, language: Language): (r: Result<ContractType>)
    ensures BaseCount(erc20, erc721, erc1155) > 1 ==> r == Err(Other(MultipleBasesMessage))
    ensures BaseCount(erc20, erc721, erc1155) == 0 && upgradeable ==> r == Err(Other(UpgradeableNeedsBaseMessage))
    ensures BaseCount(erc20, erc721, erc1155) == 1 && upgradeable && language == RustStylus ==>
      r == Err(Other(StylusUpgradeableMessage))
    ensures r.Ok? ==> BaseCount(erc20, erc721, erc1155) <= 1 && (upgradeable ==> BaseCount(erc20, erc721, erc1155) == 1)
    ensures r.Ok? ==> !(upgradeable && language == RustStylus)
    ensures r.Ok? && |extensions| == 0 ==> r.value == BaseType(erc20, erc721, erc1155, upgradeable)
    ensures r.Ok? && |extensions| > 0 ==>
      Gramr.ParseAll(extensions).Ok? &&
      r.value == MultiInheritance(BaseType(erc20, erc721, erc1155, upgradeable), Gramr.ParseAll(extensions).value) &&
      forall i :: 0 <= i < |extensions| ==> IsCompatible(r.value.baseType, r.value.extensions[i])
    ensures BaseCount(erc20, erc721, erc1155) <= 1 && !(upgradeable && BaseCount(erc20, erc721, erc1155) == 0) &&
            !(upgradeable && language == RustStylus) ==>
      (|extensions| == 0 ==> r == Ok(BaseType(erc20, erc721, erc1155, upgradeable))) &&
      (|extensions| > 0 && Gramr.ParseAll(extensions).Err? ==> r == Err(Gramr.ParseAll(extensions).error)) &&
      (|extensions| > 0 && Gramr.ParseAll(extensions).Ok? && BaseCount(erc20, erc721, erc1155) == 0 ==>
         r == Err(Other(ExtensionsNeedBaseMessage))) &&
      (|extensions| > 0 && Gramr.ParseAll(extensions).Ok? && BaseCount(erc20, erc721, erc1155) == 1 ==>
         (r.Ok? <==> ValidateExtensions(BaseType(erc20, erc721, erc1155, upgradeable), Gramr.ParseAll(extensions).value).Ok?) &&
         (r.Err? ==> r == Err(ValidateExtensions(BaseType(erc20, erc721, erc1155, upgradeable), Gramr.ParseAll(extensions).value).error)))
  {
    var count := BaseCount(erc20, erc721, erc1155);
    if count > 1 then Err(Other(MultipleBasesMessage))
    else if upgradeable && count == 0 then Err(Other(UpgradeableNeedsBaseMessage))
    else if upgradeable && language == RustStylus then Err(Other(StylusUpgradeableMessage))
    else
      var parsed := if |extensions| > 0 then Gramr.ParseAll(extensions) else Ok([]);
      if parsed.Err? then Err(parsed.error)
      else if |parsed.value| > 0 && count == 0 then Err(Other(ExtensionsNeedBaseMessage))
      else
        var base := BaseType(erc20, erc721, erc1155, upgradeable);
        if |parsed.value| == 0 then Ok(base)
        else
          match ValidateExtensions(base, parsed.value)
          case Err(e) => Err(e)
          case Ok(_) => Ok(MultiInheritance(base, parsed.value))
  }

  /** An unknown extension name fails the request even when no base flag is set. */
  lemma NamesParsedBeforeBaseCheck(upgradeable: bool, extensions: seq<string>, language: Language)
    requires !upgradeable && Gramr.ParseAll(extensions).Err?
    ensures DetermineContractType(false, false, false, upgradeable, extensions, language) == Err(Gramr.ParseAll(extensions).error)
  {
    assert |extensions| > 0;
  }

  /** Known extension names with no base flag are refused. */
  lemma ExtensionsNeedBase(extensions: seq<string>, language: Language)
    requires |extensions| > 0 && Gramr.ParseAll(extensions).Ok?
    ensures DetermineContractType(false, false, false, false, extensions, language) == Err(Other(ExtensionsNeedBaseMessage))
  {
  }

  /** The first incompatible extension is the error when the flags and names are otherwise fine. */
  lemma IncompatibleExtensionReported(erc20: bool, erc721: bool, erc1155: bool, upgradeable: bool,
                                      extensions: seq<string>, language: Language)
    requires BaseCount(erc20, erc721, erc1155) == 1 && !(upgradeable && language == RustStylus)
    requires Gramr.ParseAll(extensions).Ok? && |extensions| > 0
    requires ValidateExtensions(BaseType(erc20, erc721, erc1155, upgradeable), Gramr.ParseAll(extensions).value).Err?
    ensures DetermineContractType(erc20, erc721, erc1155, upgradeable, extensions, language)
      == Err(ValidateExtensions(BaseType(erc20, erc721, erc1155, upgradeable), Gramr.ParseAll(extensions).value).error)
  {
  }

  // ---------------------------------------------------------------------
  // Dispatch

  /** The command line of `new`, one field per argument. */
  datatype NewRequest = NewRequest(
    resourceType: string,
    name: string,
    solidity: bool,
    rustStylus: bool,
    ozErc20: bool,
    ozErc721: bool,
    ozErc1155: bool,
    upgradeable: bool,
    extensions: seq<string>,
    withTest: bool,
    withScript: bool,
    pragma: string,
    license: string,
    withSectionMarkers: bool)

  /** What `detect` sees: the file system, the working directory and whether `forge` is on the path. */
  datatype Environment = Environment(snapshot: Snapshot, cwd: Path, hasForge: bool)

  /** A request for one of the generators that are not part of this model. */
  datatype PlainRequest = PlainRequest(project: ProjectType, language: Language, name: string,
                                       pragma: Option<string>, license: Option<string>)

  /** The generator `execute_new` hands the request to, fully configured. */
  datatype Handoff =
    | RunContract(contract: GenericGeneration.GenericGenerator)
    | RunLibrary(library: LibraryGeneration.LibraryGenerator)
    | RunScript(script: ScriptGeneration.ScriptGenerator)
    | RunTest(test: TestGeneration.TestGenerator)
    | RunInterface(interfaceRequest: PlainRequest)
    | RunAbstract(abstractRequest: PlainRequest)
    | RunConfig(configName: string)

  /** Any flag that only makes sense for a contract, section markers included. */
  predicate ContractFlags(q: NewRequest)
  {
    q.ozErc20 || q.ozErc721 || q.ozErc1155 || q.upgradeable || |q.extensions| > 0
    || q.withTest || q.withScript || q.withSectionMarkers
  }

  /** The same flags without section markers, which abstract contracts accept. */
  predicate ContractFlagsButMarkers(q: NewRequest)
  {
    q.ozErc20 || q.ozErc721 || q.ozErc1155 || q.upgradeable || |q.extensions| > 0
    || q.withTest || q.withScript
  }

  const LibraryFlagsMessage := "Library generation doesn't support contract-specific flags"
  const ScriptStylusMessage := "Script generation is not supported for Rust/Stylus projects"
  const ScriptFlagsMessage := "Script generation doesn't support contract-specific flags"
  const ScriptFoundryOnlyMessage := "Script generation is only supported for Foundry projects"
  const TestStylusMessage := "Test generation is not supported for Rust/Stylus projects"
  const TestFlagsMessage := "Test generation doesn't support contract-specific flags"
  const TestFoundryOnlyMessage := "Test generation is only supported for Foundry projects"
  const InterfaceFlagsMessage := "Interface generation doesn't support contract-specific flags"
  const AbstractFlagsMessage := "Abstract contract generation doesn't support contract-specific flags (except --with-section-markers)"
  const ConfigFlagsMessage := "Config generation doesn't support contract-specific flags"
  const SupportedTypes := ". Supported types: contract, library, script, test, interface, abstract, config"

  predicate KnownResource(rt: string)
  {
    rt in ["contract", "library", "script", "test", "interface", "abstract", "config"]
  }

  /** The handoff for a resource once the language and project are known. */
  function Dispatch(q: NewRequest, language: Language, project: ProjectType): (r: Result<Handoff>)
    ensures !KnownResource(q.resourceType) ==> r == Err(Other(("Unsupported " + "resource " + "type: ") + q.resourceType + SupportedTypes))
    ensures q.resourceType == "contract" ==>
      r == (match DetermineContractType(q.ozErc20, q.ozErc721, q.ozErc1155, q.upgradeable, q.extensions, language)
            case Err(e) => Err(e)
            case Ok(t) => Ok(RunContract(GenericGeneration.GenericGenerator(project, language, q.name, t,
                                           q.withTest, q.withScript, Some(q.pragma), Some(q.license)))))
    ensures (KnownResource(q.resourceType) && q.resourceType != "contract" && q.resourceType != "abstract" &&
             ContractFlags(q)) ==> r.Err?
    ensures q.resourceType == "abstract" ==> (r.Err? <==> ContractFlagsButMarkers(q))
    ensures q.resourceType in ["library", "interface", "config"] ==> (r.Err? <==> ContractFlags(q))
    ensures q.resourceType == "script" && q.rustStylus ==> r == Err(Other(ScriptStylusMessage))
    ensures q.resourceType == "test" && q.rustStylus ==> r == Err(Other(TestStylusMessage))
    ensures q.resourceType in ["script", "test"] && !q.rustStylus && project.Foundry? ==> (r.Err? <==> ContractFlags(q))
    ensures q.resourceType in ["script", "test"] && !q.rustStylus && !ContractFlags(q) && !project.Foundry? ==>
      r == Err(Other(if q.resourceType == "script" then ScriptFoundryOnlyMessage else TestFoundryOnlyMessage))
    ensures q.resourceType == "library" && !ContractFlags(q) ==>
      r == Ok(RunLibrary(LibraryGeneration.LibraryGenerator(project, language, q.name, Some(q.pragma), Some(q.license))))
    ensures q.resourceType == "script" && !q.rustStylus && !ContractFlags(q) && project.Foundry? ==>
      r == Ok(RunScript(ScriptGeneration.ScriptGenerator(project.foundry, q.name, q.pragma, q.license)))
    ensures q.resourceType == "test" && !q.rustStylus && !ContractFlags(q) && project.Foundry? ==>
      r == Ok(RunTest(TestGeneration.TestGenerator(project.foundry, q.name, q.pragma, q.license)))
    ensures q.resourceType == "interface" && !ContractFlags(q) ==>
      r == Ok(RunInterface(PlainRequest(project, language, q.name, Some(q.pragma), Some(q.license))))
    ensures q.resourceType == "abstract" && !ContractFlagsButMarkers(q) ==>
      r == Ok(RunAbstract(PlainRequest(project, language, q.name, Some(q.pragma), Some(q.license))))
    ensures q.resourceType == "config" && !ContractFlags(q) ==> r == Ok(RunConfig(q.name))
  {
    match q.resourceType
    case "contract" =>
      (match DetermineContractType(q.ozErc20, q.ozErc721, q.ozErc1155, q.upgradeable, q.extensions, language)
       case Err(e) => Err(e)
       case Ok(t) => Ok(RunContract(GenericGeneration.GenericGenerator(project, language, q.name, t,
                                      q.withTest, q.withScript, Some(q.pragma), Some(q.license)))))
    case "library" =>
      if ContractFlags(q) then Err(Other(LibraryFlagsMessage))
      else Ok(RunLibrary(LibraryGeneration.LibraryGenerator(project, language, q.name, Some(q.pragma), Some(q.license))))
    case "script" =>
      if q.rustStylus then Err(Other(ScriptStylusMessage))
      else if ContractFlags(q) then Err(Other(ScriptFlagsMessage))
      else if project.Foundry? then Ok(RunScript(ScriptGeneration.ScriptGenerator(project.foundry, q.name, q.pragma, q.license)))
      else Err(Other(ScriptFoundryOnlyMessage))
    case "test" =>
      if q.rustStylus then Err(Other(TestStylusMessage))
      else if ContractFlags(q) then Err(Other(TestFlagsMessage))
      else if project.Foundry? then Ok(RunTest(TestGeneration.TestGenerator(project.foundry, q.name, q.pragma, q.license)))
      else Err(Other(TestFoundryOnlyMessage))
    case "interface" =>
      if ContractFlags(q) then Err(Other(InterfaceFlagsMessage))
      else Ok(RunInterface(PlainRequest(project, language, q.name, Some(q.pragma), Some(q.license))))
    case "abstract" =>
      if ContractFlagsButMarkers(q) then Err(Other(AbstractFlagsMessage))
      else Ok(RunAbstract(PlainRequest(project, language, q.name, Some(q.pragma), Some(q.license))))
    case "config" =>
      if ContractFlags(q) then Err(Other(ConfigFlagsMessage))
      else Ok(RunConfig(q.name))
    case _ => Err(Other(("Unsupported " + "resource " + "type: ") + q.resourceType + SupportedTypes))
  }

  /**
   * `execute_new`: the language from its two flags, then the project it
   * implies, then the resource dispatch. Nothing is dispatched before both
   * succeed, so even an unknown resource type is reported only in a
   * detected project.
   */
  function ExecuteNew(q: NewRequest, env: Environment): (r: Result<Handoff>)
    ensures FromFlags(q.solidity, q.rustStylus).Err? ==> r == Err(FromFlags(q.solidity, q.rustStylus).error)
    ensures FromFlags(q.solidity, q.rustStylus).Ok? ==>
      var language := FromFlags(q.solidity, q.rustStylus).value;
      r == (match Detect(env.snapshot, language, env.cwd, env.hasForge)
            case Err(e) => Err(e)
            case Ok(pt) => Dispatch(q, language, pt))
  {
    match FromFlags(q.solidity, q.rustStylus)
    case Err(e) => Err(e)
    case Ok(language) =>
      match Detect(env.snapshot, language, env.cwd, env.hasForge)
      case Err(e) => Err(e)
      case Ok(pt) => Dispatch(q, language, pt)
  }

  /**
   * A script or test request that reaches its project check always finds a
   * Foundry project: without `--rust-stylus` the language is Solidity, and
   * Solidity detection only yields Foundry projects.
   */
  lemma ScriptAndTestFindFoundry(q: NewRequest, env: Environment)
    requires q.resourceType == "script" || q.resourceType == "test"
    ensures ExecuteNew(q, env) != Err(Other(ScriptFoundryOnlyMessage))
    ensures ExecuteNew(q, env) != Err(Other(TestFoundryOnlyMessage))
  {
    var r := ExecuteNew(q, env);
    var l := FromFlags(q.solidity, q.rustStylus);
    if l.Ok? && !q.rustStylus {
      assert l.value == Solidity;
      var d := Detect(env.snapshot, Solidity, env.cwd, env.hasForge);
      if d.Ok? {
        assert d.value.Foundry?;
      } else {
        assert r == Err(d.error);
        assert d.error == NotFoundryProject || d.error == FoundryNotInstalled;
      }
    }
  }

  /** A successful contract request hands the generic generator the parsed type, the pragma and the licence as given. */
  lemma ContractHandoff(q: NewRequest, env: Environment)
    requires q.resourceType == "contract" && ExecuteNew(q, env).Ok?
    ensures var g := ExecuteNew(q, env).value;
      g.RunContract? && g.contract.contractName == q.name &&
      g.contract.pragma == Some(q.pragma) && g.contract.license == Some(q.license) &&
      g.contract.withTest == q.withTest && g.contract.withScript == q.withScript &&
      DetermineContractType(q.ozErc20, q.ozErc721, q.ozErc1155, q.upgradeable, q.extensions, g.contract.language)
        == Ok(g.contract.contractType)
  {
  }
}
