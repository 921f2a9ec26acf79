/**
 * The interactive wizard's decisions, with each prompt's answer taken as a
 * parameter: the name check applied while typing, the mapping of a token
 * standard and the upgradeable answer to a contract type, and the
 * per-standard extension menus, whose picks are parsed against the
 * standard and kept in order, unparseable ones dropped.
 */
module Wizard {
  import opened Errors
  import opened Contracts
  import opened Languages
  import opened Names
  import Gramr
  import SolidityTemplates
  import NewCommand

  // ---------------------------------------------------------------------
  // Name

  /** The validator of the name prompt: `None` accepts, `Some(message)` rejects. */
  function ValidateInput(input: string): (r: Option<string>)
    ensures r.None? <==> ValidName(input)
    ensures |input| == 0 ==> r == Some(("Name " + "cannot " + "be " + "empty"))
    ensures |input| > 0 && !Chars.IsAlphabetic(input[0]) ==> r == Some(("Name " + "must " + "start " + "with " + "a " + "letter"))
    ensures |input| > 0 && Chars.IsAlphabetic(input[0]) && !ValidName(input) ==> r == Some(("Name " + "can " + "only " + "contain " + "letters, " + "numbers, " + "and " + "underscores"))
  {
    match CheckName(input)
    case None => None
    case Some(Empty) => Some(("Name " + "cannot " + "be " + "empty"))
    case Some(NoLeadingLetter) => Some(("Name " + "must " + "start " + "with " + "a " + "letter"))
    case Some(BadCharacter) => Some(("Name " + "can " + "only " + "contain " + "letters, " + "numbers, " + "and " + "underscores"))
  }

  /** The wizard accepts exactly the names the generators accept. */
  lemma WizardAgreesWithGenerators(input: string, kind: string)
    ensures ValidateInput(input).None? <==> ValidateName(kind, AsInvalidName, input).Ok?
    ensures ValidateInput(input).None? <==> ValidateName(kind, AsOther, input).Ok?
  {
  }

  // ---------------------------------------------------------------------
  // Contract type

  /** The four standards the token menu offers. */
  predicate MenuBase(base: ContractType)
  {
    base == Basic || IsPlainBase(base)
  }

  /** The chosen standard, turned upgradeable when asked (which is only asked for a token standard). */
  function UpgradeMapping(base: ContractType, upgradeable: bool): (t: ContractType)
    requires MenuBase(base) && (upgradeable ==> base != Basic)
    ensures !upgradeable ==> t == base
    ensures upgradeable ==> IsUpgradeableBase(t) && FamilyOf(t) == FamilyOf(base)
  {
    match (base, upgradeable)
    case (ERC20, true) => ERC20Upgradeable
    case (ERC721, true) => ERC721Upgradeable
    case (ERC1155, true) => ERC1155Upgradeable
    case (_, _) => base
  }

  /** The mapping agrees with the command line's choice from the base flags. */
  lemma UpgradeMappingMatchesFlags(base: ContractType, upgradeable: bool)
    requires IsPlainBase(base)
    ensures UpgradeMapping(base, upgradeable) == NewCommand.BaseType(base == ERC20, base == ERC721, base == ERC1155, upgradeable)
  {
  }

  // ---------------------------------------------------------------------
  // Extensions

  /** The short names the extension menu offers for a standard, in menu order. */
  function Menu(base: ContractType): seq<string>
  {
    match base
    case ERC20 => ["burnable", "pausable", "permit", "capped", "votes", "wrapper", "flashmint"]
    case ERC721 => ["burnable", "pausable", "enumerable", "uristorage", "royalty", "votes"]
    case ERC1155 => ["burnable", "pausable", "supply", "uristorage"]
    case _ => []
  }

  /** `parse_extension`: a short name read as the standard's own extension. */
  function ParseExtension(name: string, base: ContractType): (r: Result<TokenExtension>)
    ensures r.Ok? ==> IsPlainBase(base) && NativeFamily(r.value) == FamilyOf(base).value
    ensures r.Err? ==> r.error == Other(("Unknown " + "extension: ") + name)
  {
    match base
    case ERC20 =>
      if name == "burnable" then Ok(ERC20Burnable)
      else if name == "pausable" then Ok(ERC20Pausable)
      else if name == "permit" then Ok(ERC20Permit)
      else if name == "capped" then Ok(ERC20Capped)
      else if name == "votes" then Ok(ERC20Votes)
      else if name == "wrapper" then Ok(ERC20Wrapper)
      else if name == "flashmint" then Ok(ERC20FlashMint)
      else Err(Other(("Unknown " + "extension: ") + name))
    case ERC721 =>
      if name == "burnable" then Ok(ERC721Burnable)
      else if name == "pausable" then Ok(ERC721Pausable)
      else if name == "enumerable" then Ok(ERC721Enumerable)
      else if name == "uristorage" then Ok(ERC721URIStorage)
      else if name == "royalty" then Ok(ERC721Royalty)
      else if name == "votes" then Ok(ERC721Votes)
      else Err(Other(("Unknown " + "extension: ") + name))
    case ERC1155 =>
      if name == "burnable" then Ok(ERC1155Burnable)
      else if name == "pausable" then Ok(ERC1155Pausable)
      else if name == "supply" then Ok(ERC1155Supply)
      else if name == "uristorage" then Ok(ERC1155URIStorage)
      else Err(Other(("Unknown " + "extension: ") + name))
    case _ => Err(Other(("Unknown " + "extension: ") + name))
  }

  /** Every entry of a standard's menu parses, so the menu and the parser offer the same names. */
  lemma MenuEntriesParse(base: ContractType, i: nat)
    requires i < |Menu(base)|
    ensures IsPlainBase(base) && ParseExtension(Menu(base)[i], base).Ok?
  {
  }

  lemma ParseIffMenu(name: string, base: ContractType)
    ensures ParseExtension(name, base).Ok? <==> IsPlainBase(base) && name in Menu(base)
  {
    if IsPlainBase(base) && name in Menu(base) {
      var i :| 0 <= i < |Menu(base)| && Menu(base)[i] == name;
      MenuEntriesParse(base, i);
    }
  }

  /** Distinct menu entries give distinct extensions. */
  lemma ParseInjective(a: string, b: string, base: ContractType)
    requires ParseExtension(a, base).Ok? && ParseExtension(b, base).Ok?
    requires ParseExtension(a, base).value == ParseExtension(b, base).value
    ensures a == b
  {
  }

  /**
   * What the wizard picks passes the command line's compatibility check,
   * for the standard and for its upgradeable form.
   */
  lemma ParsedIsCompatible(name: string, base: ContractType, upgradeable: bool)
    requires ParseExtension(name, base).Ok?
    ensures NewCommand.IsCompatible(UpgradeMapping(base, upgradeable), ParseExtension(name, base).value)
  {
  }

  /** How the command line reads each name of the wizard's menus. */
  function CommandLineReading(name: string): TokenExtension
  {
    if name == "burnable" then ERC20Burnable
    else if name == "pausable" then ERC20Pausable
    else if name == "permit" then ERC20Permit
    else if name == "capped" then ERC20Capped
    else if name == "votes" then ERC20Votes
    else if name == "wrapper" then ERC20Wrapper
    else if name == "flashmint" then ERC20FlashMint
    else if name == "enumerable" then ERC721Enumerable
    else if name == "uristorage" then ERC721URIStorage
    else if name == "royalty" then ERC721Royalty
    else ERC1155Supply
  }

  /** The command line's parser agrees with `CommandLineReading` on every menu name. */
  lemma CommandLineReadsMenu(name: string)
    requires name in ["burnable", "pausable", "permit", "capped", "votes", "wrapper", "flashmint",
                      "enumerable", "uristorage", "royalty", "supply"]
    ensures Gramr.ParseExtension(name) == Ok(CommandLineReading(name))
  {
    var e := CommandLineReading(name);
    assert Gramr.ExtensionKeyword(e) == Some(name);
    Gramr.KeywordParses(e);
  }

  /**
   * The wizard and the command line mostly agree: the wizard's extension
   * is the command line's reading of the same name after the template's
   * conversion, except for `votes` on ERC721, which the wizard reads as
   * `ERC721Votes` and the command line as `ERC20Votes`.
   */
  lemma WizardVersusCommandLine(name: string, base: ContractType)
    requires ParseExtension(name, base).Ok?
    ensures Gramr.ParseExtension(name) == Ok(CommandLineReading(name))
    ensures !(name == "votes" && base == ERC721) ==>
      ParseExtension(name, base).value == SolidityTemplates.ConvertExtension(base, CommandLineReading(name))
    ensures name == "votes" && base == ERC721 ==>
      ParseExtension(name, base).value == ERC721Votes && CommandLineReading(name) == ERC20Votes
  {
    ParseIffMenu(name, base);
    CommandLineReadsMenu(name);
    if base == ERC20 {
      FungibleAgrees(name);
    } else if base == ERC721 {
      NonFungibleAgrees(name);
    } else {
      MultiTokenAgrees(name);
    }
  }

  lemma FungibleAgrees(name: string)
    requires name in Menu(ERC20)
    ensures ParseExtension(name, ERC20) == Ok(SolidityTemplates.ConvertExtension(ERC20, CommandLineReading(name)))
  {
  }

  lemma NonFungibleAgrees(name: string)
    requires name in Menu(ERC721)
    ensures name != "votes" ==>
      ParseExtension(name, ERC721) == Ok(SolidityTemplates.ConvertExtension(ERC721, CommandLineReading(name)))
    ensures name == "votes" ==> ParseExtension(name, ERC721) == Ok(ERC721Votes) && CommandLineReading(name) == ERC20Votes
  {
  }

  lemma MultiTokenAgrees(name: string)
    requires name in Menu(ERC1155)
    ensures ParseExtension(name, ERC1155) == Ok(SolidityTemplates.ConvertExtension(ERC1155, CommandLineReading(name)))
  {
  }

  /** The picks that parse, in the order picked. */
  function Kept(selected: seq<string>, base: ContractType): (r: seq<TokenExtension>)
    ensures |r| <= |selected|
    decreases |selected|
  {
    if |selected| == 0 then []
    else
      var last := ParseExtension(selected[|selected| - 1], base);
      Kept(selected[..|selected| - 1], base) + (if last.Ok? then [last.value] else [])
  }

  /** One more pick adds its extension when it parses. */
  lemma KeptStep(selected: seq<string>, i: nat, base: ContractType)
    requires i < |selected|
    ensures var p := ParseExtension(selected[i], base);
      Kept(selected[..i + 1], base) == Kept(selected[..i], base) + (if p.Ok? then [p.value] else [])
  {
    assert selected[..i + 1][..i] == selected[..i];
  }

  /** Picks all from the menu are all kept, one extension per pick in the same position. */
  lemma MenuPicksAllKept(selected: seq<string>, base: ContractType)
    requires IsPlainBase(base)
    requires forall i :: 0 <= i < |selected| ==> selected[i] in Menu(base)
    ensures |Kept(selected, base)| == |selected|
    ensures forall i :: 0 <= i < |selected| ==> Ok(Kept(selected, base)[i]) == ParseExtension(selected[i], base)
  {
    forall i | 0 <= i < |selected|
      ensures ParseExtension(selected[i], base).Ok?
    {
      ParseIffMenu(selected[i], base);
    }
    ParsedPicksAllKept(selected, base);
  }

  /** Picks that all parse are all kept, one extension per pick in the same position. */
  lemma {:induction false} ParsedPicksAllKept(selected: seq<string>, base: ContractType)
    requires forall i :: 0 <= i < |selected| ==> ParseExtension(selected[i], base).Ok?
    ensures |Kept(selected, base)| == |selected|
    ensures forall i :: 0 <= i < |selected| ==> Ok(Kept(selected, base)[i]) == ParseExtension(selected[i], base)
    decreases |selected|
  {
    if |selected| > 0 {
      var n := |selected| - 1;
      var init := selected[..n];
      ParsedPicksAllKept(init, base);
      KeptStep(selected, n, base);
      assert selected[..n + 1] == selected;
      forall i | 0 <= i < |selected|
        ensures Ok(Kept(selected, base)[i]) == ParseExtension(selected[i], base)
      {
        if i < n {
          assert selected[i] == init[i];
        }
      }
    }
  }

  /** Everything kept is an extension of the chosen standard, and compatible with it. */
  lemma {:induction false} KeptCompatible(selected: seq<string>, base: ContractType, upgradeable: bool)
    requires MenuBase(base) && (upgradeable ==> base != Basic)
    ensures forall e :: e in Kept(selected, base) ==>
      FamilyOf(base) == Some(NativeFamily(e)) && NewCommand.IsCompatible(UpgradeMapping(base, upgradeable), e)
    decreases |selected|
  {
    if |selected| > 0 {
      KeptCompatible(selected[..|selected| - 1], base, upgradeable);
      var last := ParseExtension(selected[|selected| - 1], base);
      if last.Ok? {
        ParsedIsCompatible(selected[|selected| - 1], base, upgradeable);
      }
    }
  }

  // ---------------------------------------------------------------------
  // State

  const ScriptOrTestStylusMessage := "Scripts and tests are only supported for Solidity projects"

  /** The answers gathered so far. */
  class WizardState {
    var resourceType: string
    var name: string
    var language: Language
    var contractType: Option<ContractType>
    var extensions: seq<TokenExtension>
    var withTest: bool
    var withScript: bool
    var pragma: string
    var license: string

    /** `WizardState::new`: Solidity, no type, no extensions, no test or script, the default pragma and licence. */
    constructor ()
      ensures resourceType == "" && name == "" && language == Solidity
      ensures contractType == None && extensions == []
      ensures !withTest && !withScript
      ensures pragma == DefaultPragma && license == DefaultLicense
    {
      resourceType := "";
      name := "";
      language := Solidity;
      contractType := None;
      extensions := [];
      withTest := false;
      withScript := false;
      pragma := DefaultPragma;
      license := DefaultLicense;
    }

    /** `choose_extensions` after the menu: each pick is parsed and pushed when it parses. */
    method ChooseExtensions(base: ContractType, selected: seq<string>)
      modifies this
      ensures extensions == old(extensions) + Kept(selected, base)
      ensures resourceType == old(resourceType) && name == old(name) && language == old(language)
      ensures contractType == old(contractType) && withTest == old(withTest) && withScript == old(withScript)
      ensures pragma == old(pragma) && license == old(license)
    {
      for i := 0 to |selected|
        invariant extensions == old(extensions) + Kept(selected[..i], base)
        invariant resourceType == old(resourceType) && name == old(name) && language == old(language)
        invariant contractType == old(contractType) && withTest == old(withTest) && withScript == old(withScript)
        invariant pragma == old(pragma) && license == old(license)
      {
        KeptStep(selected, i, base);
        var parsed := ParseExtension(selected[i], base);
        if parsed.Ok? {
          extensions := extensions + [parsed.value];
        }
      }
      assert selected[..|selected|] == selected;
    }

    /**
     * `configure_contract`, with the standard, the upgradeable answer, the
     * extensions answer and the picks given. The upgradeable question and
     * the extension menu only apply to a Solidity token standard.
     */
    method ConfigureContract(base: ContractType, upgradeAnswer: bool, addExtensions: bool, selected: seq<string>)
      requires MenuBase(base)
      modifies this
      ensures var upgradeable := language == Solidity && base != Basic && upgradeAnswer;
        contractType == Some(UpgradeMapping(base, upgradeable))
      ensures extensions == old(extensions) +
        (if language == Solidity && base != Basic && addExtensions then Kept(selected, base) else [])
      ensures resourceType == old(resourceType) && name == old(name) && language == old(language)
      ensures withTest == old(withTest) && withScript == old(withScript)
      ensures pragma == old(pragma) && license == old(license)
    {
      var upgradeable := language == Solidity && base != Basic && upgradeAnswer;
      contractType := Some(UpgradeMapping(base, upgradeable));
      if language == Solidity && base != Basic && addExtensions {
        ChooseExtensions(base, selected);
      }
    }

    /** `configure_script_or_test`: Rust/Stylus projects get neither. */
    function ScriptOrTestCheck(): (r: Result<Unit>)
      reads this
      ensures r.Ok? <==> language.Solidity?
    {
      if language.RustStylus? then Err(Other(ScriptOrTestStylusMessage)) else Ok(Unit)
    }

    /** `configure_generation_options`: the test and script questions are asked for Solidity contracts only. */
    method ConfigureGenerationOptions(testAnswer: bool, scriptAnswer: bool)
      modifies this
      ensures language == Solidity && resourceType == "contract" ==> withTest == testAnswer && withScript == scriptAnswer
      ensures !(language == Solidity && resourceType == "contract") ==> withTest == old(withTest) && withScript == old(withScript)
      ensures resourceType == old(resourceType) && name == old(name) && language == old(language)
      ensures contractType == old(contractType) && extensions == old(extensions)
      ensures pragma == old(pragma) && license == old(license)
    {
      if language == Solidity && resourceType == "contract" {
        withTest := testAnswer;
        withScript := scriptAnswer;
      }
    }

    /** `configure_solidity_options`: the pragma and licence change only for Solidity, and only when asked. */
    method ConfigureSolidityOptions(customize: bool, pragmaAnswer: string, licenseAnswer: string)
      modifies this
      ensures language == Solidity && customize ==> pragma == pragmaAnswer && license == licenseAnswer
      ensures !(language == Solidity && customize) ==> pragma == old(pragma) && license == old(license)
      ensures resourceType == old(resourceType) && name == old(name) && language == old(language)
      ensures contractType == old(contractType) && extensions == old(extensions)
      ensures withTest == old(withTest) && withScript == old(withScript)
    {
      if language == Solidity && customize {
        pragma := pragmaAnswer;
        license := licenseAnswer;
      }
    }
  }
}
