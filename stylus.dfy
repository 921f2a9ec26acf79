/**
 * The Rust/Stylus template: a contract per token standard, and the test,
 * deployment notes, library, interface and abstract texts, which are all
 * written from the contract name alone.
 */
module StylusTemplates {
  import opened Errors
  import opened Contracts
  import opened Chars
  import opened Text
  import SolidityTemplates

  datatype StylusTemplate = StylusTemplate(contractName: string, contractType: ContractType)

  /**
   * The types the template can write. An upgradeable tag, `Interface` or
   * `Abstract` at the top level makes the source panic.
   */
  predicate Supported(t: ContractType)
  {
    !IsUpgradeableBase(t) && t != Interface && t != Abstract
  }

  /** The token symbol: the same rule as the Solidity template's. */
  function Symbol(name: string): (r: string)
    ensures r == SolidityTemplates.GetSymbol(name)
    ensures |r| <= 3
  {
    SolidityTemplates.GetSymbol(name)
  }

  const BasicPieces: seq<string> := [
    ("#![cfg_attr(" + "not(feature " + "= " + "\"export-abi\"" + "), " + "no_std)]\n" +
        "\n" +
        "extern " + "crate " + "alloc;\n" +
        "\n" +
        "use " + "stylus_sdk::" + "{prelude::*," + " msg};\n" +
        "use " + "alloc::strin" + "g::String;\n" +
        "use " + "alloc::vec::" + "Vec;\n" +
        "\n" +
        "/// " + "Entrypoint " + "for " + "the "),
    (" contract\n" +
        "#[entrypoint" + "]\n" +
        "#[storage]\n" +
        "pub " + "struct "),
    (" {\n" +
        "    " + "owner: " + "StorageAddre" + "ss,\n" +
        "}\n" +
        "\n" +
        "#[public]\n" +
        "impl "),
    (" {\n" +
        "    " + "/// " + "Constructor\n" +
        "    " + "pub " + "fn " + "init(&mut " + "self) " + "-> " + "Result<(), " + "Vec<u8>> " +
        "{\n" +
        "        " + "self.owner.s" + "et(msg::send" + "er());\n" +
        "        " + "Ok(())\n" +
        "    " + "}\n" +
        "    " + "\n" +
        "    " + "/// " + "Get " + "the " + "owner\n" +
        "    " + "pub " + "fn " + "owner(&self)" + " -> " + "Address " + "{\n" +
        "        " + "self.owner.g" + "et()\n" +
        "    " + "}\n" +
        "}\n")
  ]

  const FungiblePieces: seq<string> := [
    ("#![cfg_attr(" + "not(feature " + "= " + "\"export-abi\"" + "), " + "no_std)]\n" +
        "\n" +
        "extern " + "crate " + "alloc;\n" +
        "\n" +
        "use " + "openzeppelin" + "_stylus::{\n" +
        "    " + "token::erc20" + "::{\n" +
        "        " + "Erc20, " + "IErc20, " + "IErc20Metada" + "ta,\n" +
        "        " + "extensions::" + "{Burnable, " + "IBurnable},\n" +
        "    " + "},\n" +
        "};\n" +
        "use " + "stylus_sdk::" + "{\n" +
        "    " + "msg,\n" +
        "    " + "prelude::*,\n" +
        "};\n" +
        "use " + "alloc::strin" + "g::String;\n" +
        "\n" +
        "/// "),
    (" ERC20 " + "Token\n" +
        "#[entrypoint" + "]\n" +
        "#[storage]\n" +
        "struct "),
    (" {\n" +
        "    " + "#[borrow]\n" +
        "    " + "erc20: " + "Erc20,\n" +
        "}\n" +
        "\n" +
        "#[public]\n" +
        "#[inherit(Er" + "c20)]\n" +
        "impl "),
    (" {\n" +
        "    " + "/// " + "Initialize " + "the " + "contract " + "with " + "an " + "initial " +
        "supply\n" +
        "    " + "pub " + "fn " + "init(&mut " + "self, " + "initial_supp" + "ly: " + "U256) " +
        "-> " + "Result<(), " + "Vec<u8>> " + "{\n" +
        "        " + "self.erc20._" + "metadata.nam" + "e.set(String" + "::from(\""),
    ("\"));\n" +
        "        " + "self.erc20._" + "metadata.sym" + "bol.set(Stri" + "ng::from(\""),
    ("\"));\n" +
        "        " + "\n" +
        "        " + "// " + "Mint " + "initial " + "supply " + "to " + "deployer\n" +
        "        " + "let " + "deployer " + "= " + "msg::sender(" + ");\n" +
        "        " + "self.erc20._" + "mint(deploye" + "r, " + "initial_supp" + "ly)?;\n" +
        "        " + "\n" +
        "        " + "Ok(())\n" +
        "    " + "}\n" +
        "    " + "\n" +
        "    " + "/// " + "Mint " + "new " + "tokens\n" +
        "    " + "pub " + "fn " + "mint(&mut " + "self, " + "to: " + "Address, " + "amount: " +
        "U256) " + "-> " + "Result<(), " + "Vec<u8>> " + "{\n" +
        "        " + "// " + "Add " + "access " + "control " + "as " + "needed\n" +
        "        " + "self.erc20._" + "mint(to, " + "amount)?;\n" +
        "        " + "Ok(())\n" +
        "    " + "}\n" +
        "}\n")
  ]

  const NonFungiblePieces: seq<string> := [
    ("#![cfg_attr(" + "not(feature " + "= " + "\"export-abi\"" + "), " + "no_std)]\n" +
        "\n" +
        "extern " + "crate " + "alloc;\n" +
        "\n" +
        "use " + "openzeppelin" + "_stylus::{\n" +
        "    " + "token::erc72" + "1::{\n" +
        "        " + "Erc721, " + "IErc721, " + "IErc721Metad" + "ata,\n" +
        "        " + "extensions::" + "{enumerable:" + ":{Erc721Enum" + "erable, " + "IErc721Enume" + "rable}},\n" +
        "    " + "},\n" +
        "};\n" +
        "use " + "stylus_sdk::" + "{\n" +
        "    " + "msg,\n" +
        "    " + "prelude::*,\n" +
        "};\n" +
        "use " + "alloc::strin" + "g::String;\n" +
        "\n" +
        "/// "),
    (" NFT " + "Collection\n" +
        "#[entrypoint" + "]\n" +
        "#[storage]\n" +
        "struct "),
    (" {\n" +
        "    " + "#[borrow]\n" +
        "    " + "erc721: " + "Erc721,\n" +
        "    " + "#[borrow]\n" +
        "    " + "enumerable: " + "Erc721Enumer" + "able,\n" +
        "    " + "next_token_i" + "d: " + "StorageU256," + "\n" +
        "}\n" +
        "\n" +
        "#[public]\n" +
        "#[inherit(Er" + "c721, " + "Erc721Enumer" + "able)]\n" +
        "impl "),
    (" {\n" +
        "    " + "/// " + "Initialize " + "the " + "NFT " + "collection\n" +
        "    " + "pub " + "fn " + "init(&mut " + "self) " + "-> " + "Result<(), " + "Vec<u8>> " +
        "{\n" +
        "        " + "self.erc721." + "_metadata.na" + "me.set(Strin" + "g::from(\""),
    ("\"));\n" +
        "        " + "self.erc721." + "_metadata.sy" + "mbol.set(Str" + "ing::from(\""),
    ("\"));\n" +
        "        " + "self.next_to" + "ken_id.set(U" + "256::from(1)" + ");\n" +
        "        " + "Ok(())\n" +
        "    " + "}\n" +
        "    " + "\n" +
        "    " + "/// " + "Mint " + "a " + "new " + "NFT\n" +
        "    " + "pub " + "fn " + "mint(&mut " + "self, " + "to: " + "Address) " + "-> " +
        "Result<U256," + " Vec<u8>> " + "{\n" +
        "        " + "let " + "token_id " + "= " + "self.next_to" + "ken_id.get()" + ";\n" +
        "        " + "self.erc721." + "_mint(to, " + "token_id)?;\n" +
        "        " + "self.next_to" + "ken_id.set(t" + "oken_id " + "+ " + "U256::from(1" + "));\n" +
        "        " + "Ok(token_id)" + "\n" +
        "    " + "}\n" +
        "    " + "\n" +
        "    " + "/// " + "Set " + "token " + "URI\n" +
        "    " + "pub " + "fn " + "set_token_ur" + "i(&mut " + "self, " + "token_id: " + "U256, " +
        "uri: " + "String) " + "-> " + "Result<(), " + "Vec<u8>> " + "{\n" +
        "        " + "// " + "Implement " + "URI " + "storage " + "as " + "needed\n" +
        "        " + "Ok(())\n" +
        "    " + "}\n" +
        "}\n")
  ]

  const MultiTokenPieces: seq<string> := [
    ("#![cfg_attr(" + "not(feature " + "= " + "\"export-abi\"" + "), " + "no_std)]\n" +
        "\n" +
        "extern " + "crate " + "alloc;\n" +
        "\n" +
        "use " + "openzeppelin" + "_stylus::{\n" +
        "    " + "token::erc11" + "55::{\n" +
        "        " + "Erc1155, " + "IErc1155, " + "IErc1155Meta" + "dataUri,\n" +
        "        " + "extensions::" + "{supply::{Er" + "c1155Supply," + " IErc1155Sup" + "ply}},\n" +
        "    " + "},\n" +
        "};\n" +
        "use " + "stylus_sdk::" + "{\n" +
        "    " + "msg,\n" +
        "    " + "prelude::*,\n" +
        "};\n" +
        "use " + "alloc::strin" + "g::String;\n" +
        "use " + "alloc::vec::" + "Vec;\n" +
        "\n" +
        "/// "),
    (" Multi-Token" + " Contract\n" +
        "#[entrypoint" + "]\n" +
        "#[storage]\n" +
        "struct "),
    (" {\n" +
        "    " + "#[borrow]\n" +
        "    " + "erc1155: " + "Erc1155,\n" +
        "    " + "#[borrow]\n" +
        "    " + "supply: " + "Erc1155Suppl" + "y,\n" +
        "}\n" +
        "\n" +
        "#[public]\n" +
        "#[inherit(Er" + "c1155, " + "Erc1155Suppl" + "y)]\n" +
        "impl "),
    (" {\n" +
        "    " + "/// " + "Initialize " + "the " + "multi-token " + "contract\n" +
        "    " + "pub " + "fn " + "init(&mut " + "self, " + "uri: " + "String) " + "-> " +
        "Result<(), " + "Vec<u8>> " + "{\n" +
        "        " + "self.erc1155" + "._uri.set(ur" + "i);\n" +
        "        " + "Ok(())\n" +
        "    " + "}\n" +
        "    " + "\n" +
        "    " + "/// " + "Mint " + "tokens\n" +
        "    " + "pub " + "fn " + "mint(\n" +
        "        " + "&mut " + "self,\n" +
        "        " + "to: " + "Address,\n" +
        "        " + "id: " + "U256,\n" +
        "        " + "amount: " + "U256,\n" +
        "        " + "data: " + "Vec<u8>,\n" +
        "    " + ") " + "-> " + "Result<(), " + "Vec<u8>> " + "{\n" +
        "        " + "self.erc1155" + "._mint(to, " + "id, " + "amount, " + "&data)?;\n" +
        "        " + "Ok(())\n" +
        "    " + "}\n" +
        "    " + "\n" +
        "    " + "/// " + "Mint " + "batch " + "of " + "tokens\n" +
        "    " + "pub " + "fn " + "mint_batch(\n" +
        "        " + "&mut " + "self,\n" +
        "        " + "to: " + "Address,\n" +
        "        " + "ids: " + "Vec<U256>,\n" +
        "        " + "amounts: " + "Vec<U256>,\n" +
        "        " + "data: " + "Vec<u8>,\n" +
        "    " + ") " + "-> " + "Result<(), " + "Vec<u8>> " + "{\n" +
        "        " + "self.erc1155" + "._mint_batch" + "(to, " + "ids, " + "amounts, " + "&data)?;\n" +
        "        " + "Ok(())\n" +
        "    " + "}\n" +
        "}\n")
  ]

  function BasicContract(name: string): string
  {
    Format(BasicPieces, [name, name, name])
  }

  function FungibleContract(name: string): string
  {
    Format(FungiblePieces, [name, name, name, name, Symbol(name)])
  }

  function NonFungibleContract(name: string): string
  {
    Format(NonFungiblePieces, [name, name, name, name, Symbol(name)])
  }

  function MultiTokenContract(name: string): string
  {
    Format(MultiTokenPieces, [name, name, name])
  }

  /** The four contracts the template can write. */
  datatype Kind = BasicKind | FungibleKind | NonFungibleKind | MultiTokenKind

  function KindContract(name: string, k: Kind): string
  {
    match k
    case BasicKind => BasicContract(name)
    case FungibleKind => FungibleContract(name)
    case NonFungibleKind => NonFungibleContract(name)
    case MultiTokenKind => MultiTokenContract(name)
  }

  /** The kind of contract a standard's plain generator writes; anything else gets the basic one. */
  function FamilyKind(f: Option<Family>): Kind
  {
    match f
    case Some(Fungible) => FungibleKind
    case Some(NonFungible) => NonFungibleKind
    case Some(MultiToken) => MultiTokenKind
    case None => BasicKind
  }

  /**
   * Which contract a type gets. A base with extensions ignores the
   * extensions, and an upgradeable base falls back to its plain standard's
   * contract.
   */
  function ContractKind(t: ContractType): (k: Kind)
    requires Supported(t)
    ensures t.MultiInheritance? ==> k == FamilyKind(FamilyOf(t.baseType))
    ensures !t.MultiInheritance? ==> k == FamilyKind(FamilyOf(t))
  {
    if t.MultiInheritance? then
      match t.baseType
      case ERC20 | ERC20Upgradeable => FungibleKind
      case ERC721 | ERC721Upgradeable => NonFungibleKind
      case ERC1155 | ERC1155Upgradeable => MultiTokenKind
      case _ => BasicKind
    else if t == ERC20 then FungibleKind
    else if t == ERC721 then NonFungibleKind
    else if t == ERC1155 then MultiTokenKind
    else BasicKind
  }

  /** The contract text for the template's type. */
  function GenerateContract(t: StylusTemplate): (r: string)
    requires Supported(t.contractType)
  {
    KindContract(t.contractName, ContractKind(t.contractType))
  }

  /** Extensions never change a Stylus contract. */
  lemma ExtensionsIgnored(name: string, base: ContractType, extensions: seq<TokenExtension>)
    ensures GenerateContract(StylusTemplate(name, MultiInheritance(base, extensions)))
         == GenerateContract(StylusTemplate(name, MultiInheritance(base, [])))
  {
    assert ContractKind(MultiInheritance(base, extensions)) == ContractKind(MultiInheritance(base, []));
  }

  /** A plain base with extensions writes the plain base's own contract. */
  lemma PlainBaseWithExtensions(name: string, base: ContractType, extensions: seq<TokenExtension>)
    requires IsPlainBase(base)
    ensures GenerateContract(StylusTemplate(name, MultiInheritance(base, extensions)))
         == GenerateContract(StylusTemplate(name, base))
  {
    assert ContractKind(MultiInheritance(base, extensions)) == ContractKind(base);
  }

  /** An upgradeable base under extensions writes the plain base's contract. */
  lemma UpgradeableBaseFallsBack(name: string, base: ContractType, extensions: seq<TokenExtension>)
    requires IsUpgradeableBase(base)
    ensures GenerateContract(StylusTemplate(name, MultiInheritance(base, extensions)))
         == GenerateContract(StylusTemplate(name, PlainBase(base)))
  {
    assert ContractKind(MultiInheritance(base, extensions)) == ContractKind(PlainBase(base));
  }

  /** The plain base of an upgradeable one. */
  function PlainBase(base: ContractType): (r: ContractType)
    requires IsUpgradeableBase(base)
    ensures IsPlainBase(r) && FamilyOf(r) == FamilyOf(base)
  {
    if base == ERC20Upgradeable then ERC20
    else if base == ERC721Upgradeable then ERC721
    else ERC1155
  }

  /** The fungible and non-fungible contracts carry the symbol and all four contracts the name. */
  lemma ContractsCarryNameAndSymbol(name: string)
    ensures Contains(BasicContract(name), name)
    ensures Contains(MultiTokenContract(name), name)
    ensures Contains(FungibleContract(name), name) && Contains(FungibleContract(name), Symbol(name))
    ensures Contains(NonFungibleContract(name), name) && Contains(NonFungibleContract(name), Symbol(name))
  {
    FormatContainsArg(BasicPieces, [name, name, name], 0);
    FormatContainsArg(MultiTokenPieces, [name, name, name], 0);
    FungibleCarriesNameAndSymbol(name);
    NonFungibleCarriesNameAndSymbol(name);
  }

  /** Every Stylus contract names the contract; a fungible or non-fungible one also carries its symbol. */
  lemma ContractNamesItself(t: StylusTemplate)
    requires Supported(t.contractType)
    ensures Contains(GenerateContract(t), t.contractName)
    ensures ContractKind(t.contractType) == FungibleKind || ContractKind(t.contractType) == NonFungibleKind ==>
      Contains(GenerateContract(t), Symbol(t.contractName))
  {
    var name, k := t.contractName, ContractKind(t.contractType);
    assert GenerateContract(t) == KindContract(name, k);
    match k
    case BasicKind => FormatContainsArg(BasicPieces, [name, name, name], 0);
    case FungibleKind => FungibleCarriesNameAndSymbol(name);
    case NonFungibleKind => NonFungibleCarriesNameAndSymbol(name);
    case MultiTokenKind => FormatContainsArg(MultiTokenPieces, [name, name, name], 0);
  }

  lemma FungibleCarriesNameAndSymbol(name: string)
    ensures Contains(FungibleContract(name), name) && Contains(FungibleContract(name), Symbol(name))
  {
    FormatContainsArg(FungiblePieces, [name, name, name, name, Symbol(name)], 0);
    FormatContainsArg(FungiblePieces, [name, name, name, name, Symbol(name)], 4);
  }

  lemma NonFungibleCarriesNameAndSymbol(name: string)
    ensures Contains(NonFungibleContract(name), name) && Contains(NonFungibleContract(name), Symbol(name))
  {
    FormatContainsArg(NonFungiblePieces, [name, name, name, name, Symbol(name)], 0);
    FormatContainsArg(NonFungiblePieces, [name, name, name, name, Symbol(name)], 4);
  }

  // ---------------------------------------------------------------------
  // Texts written from the name alone

  const TestPieces: seq<string> := [
    ("#[cfg(test)]" + "\n" +
        "mod " + "tests " + "{\n" +
        "    " + "use " + "super::*;\n" +
        "    " + "use " + "stylus_sdk::" + "{Address, " + "U256};\n" +
        "    " + "\n" +
        "    " + "#[test]\n" +
        "    " + "fn " + "test_deploym" + "ent() " + "{\n" +
        "        " + "// " + "Test " + "contract " + "deployment\n" +
        "        " + "let " + "contract " + "= "),
    ("::default();" + "\n" +
        "        " + "// " + "Add " + "test " + "assertions " + "here\n" +
        "    " + "}\n" +
        "    " + "\n" +
        "    " + "#[test]\n" +
        "    " + "fn " + "test_basic_f" + "unctionality" + "() " + "{\n" +
        "        " + "// " + "Add " + "functionalit" + "y " + "tests " + "here\n" +
        "    " + "}\n" +
        "}\n")
  ]

  const ScriptPieces: seq<string> := [
    "// ",
    (" Deployment " + "Instructions" + "\n" +
        "//\n" +
        "// " + "1. " + "Build " + "the " + "contract:\n" +
        "// " + "   " + "cargo " + "build " + "--release " + "--target " + "wasm32-unkno" + "wn-unknown " +
        "\\\n" +
        "// " + "     " + "-Z " + "build-std=st" + "d,panic_abor" + "t " + "\\\n" +
        "// " + "     " + "-Z " + "build-std-fe" + "atures=panic" + "_immediate_a" + "bort\n" +
        "//\n" +
        "// " + "2. " + "Deploy " + "using " + "Stylus " + "CLI:\n" +
        "// " + "   " + "stylus " + "deploy " + "--private-ke" + "y " + "$PRIVATE_KEY" + "\n" +
        "//\n" +
        "// " + "3. " + "Verify " + "the " + "contract:\n" +
        "// " + "   " + "stylus " + "verify " + "--address " + "<CONTRACT_AD" + "DRESS>\n")
  ]

  const LibraryPieces: seq<string> := [
    "//! ",
    (" Library\n" +
        "//! " + "\n" +
        "//! " + "A " + "reusable " + "library " + "for " + "Stylus " + "contracts " + "providing " +
        "utility " + "functions.\n" +
        "\n" +
        "#![cfg_attr(" + "not(feature " + "= " + "\"export-abi\"" + "), " + "no_std)]\n" +
        "\n" +
        "extern " + "crate " + "alloc;\n" +
        "\n" +
        "use " + "stylus_sdk::" + "prelude::*;\n" +
        "use " + "alloc::{stri" + "ng::String, " + "vec::Vec};\n" +
        "\n" +
        "/// " + "Example " + "trait " + "for " + "common " + "functionalit" + "y\n" +
        "pub " + "trait "),
    ("Operations " + "{\n" +
        "    " + "/// " + "Example " + "function " + "- " + "replace " + "with " + "your " +
        "own\n" +
        "    " + "fn " + "example_oper" + "ation(&self," + " value: " + "U256) " + "-> " + "U256;\n" +
        "    " + "\n" +
        "    " + "/// " + "Validation " + "function\n" +
        "    " + "fn " + "is_valid(&se" + "lf) " + "-> " + "bool;\n" +
        "}\n" +
        "\n" +
        "/// " + "Example " + "data " + "structure " + "for " + "library " + "use\n" +
        "#[derive(Def" + "ault)]\n" +
        "pub " + "struct "),
    ("Data " + "{\n" +
        "    " + "pub " + "id: " + "U256,\n" +
        "    " + "pub " + "owner: " + "Address,\n" +
        "    " + "pub " + "is_active: " + "bool,\n" +
        "}\n" +
        "\n" +
        "impl "),
    ("Data " + "{\n" +
        "    " + "/// " + "Create " + "new " + "data " + "instance\n" +
        "    " + "pub " + "fn " + "new(id: " + "U256, " + "owner: " + "Address) " + "-> " +
        "Self " + "{\n" +
        "        " + "Self " + "{\n" +
        "            " + "id,\n" +
        "            " + "owner,\n" +
        "            " + "is_active: " + "true,\n" +
        "        " + "}\n" +
        "    " + "}\n" +
        "    " + "\n" +
        "    " + "/// " + "Validate " + "data " + "integrity\n" +
        "    " + "pub " + "fn " + "validate(&se" + "lf) " + "-> " + "bool " + "{\n" +
        "        " + "!self.owner." + "is_zero() " + "&& " + "self.is_acti" + "ve\n" +
        "    " + "}\n" +
        "    " + "\n" +
        "    " + "/// " + "Example " + "transformati" + "on\n" +
        "    " + "pub " + "fn " + "transform(&m" + "ut " + "self, " + "multiplier: " + "U256) " +
        "{\n" +
        "        " + "self.id " + "= " + "self.id " + "* " + "multiplier;\n" +
        "    " + "}\n" +
        "}\n" +
        "\n" +
        "/// " + "Utility " + "functions " + "module\n" +
        "pub " + "mod "),
    (" {\n" +
        "    " + "use " + "super::*;\n" +
        "    " + "\n" +
        "    " + "/// " + "Example " + "pure " + "function\n" +
        "    " + "pub " + "fn " + "double_value" + "(value: " + "U256) " + "-> " + "U256 " +
        "{\n" +
        "        " + "value " + "* " + "U256::from(2" + ")\n" +
        "    " + "}\n" +
        "    " + "\n" +
        "    " + "/// " + "Example " + "validation " + "function\n" +
        "    " + "pub " + "fn " + "is_non_zero_" + "address(addr" + ": " + "Address) " + "-> " +
        "bool " + "{\n" +
        "        " + "!addr.is_zer" + "o()\n" +
        "    " + "}\n" +
        "    " + "\n" +
        "    " + "/// " + "Example " + "calculation " + "function\n" +
        "    " + "pub " + "fn " + "calculate_pe" + "rcentage(val" + "ue: " + "U256, " + "percentage: " +
        "u8) " + "-> " + "U256 " + "{\n" +
        "        " + "if " + "percentage " + "> " + "100 " + "{\n" +
        "            " + "return " + "U256::ZERO;\n" +
        "        " + "}\n" +
        "        " + "value " + "* " + "U256::from(p" + "ercentage) " + "/ " + "U256::from(1" + "00)\n" +
        "    " + "}\n" +
        "}\n" +
        "\n" +
        "/// " + "Error " + "types " + "for " + "the " + "library\n" +
        "#[derive(Deb" + "ug)]\n" +
        "pub " + "enum "),
    ("Error " + "{\n" +
        "    " + "InvalidInput" + ",\n" +
        "    " + "ZeroAddress," + "\n" +
        "    " + "InactiveData" + ",\n" +
        "}\n" +
        "\n" +
        "impl "),
    ("Error " + "{\n" +
        "    " + "pub " + "fn " + "as_bytes(&se" + "lf) " + "-> " + "Vec<u8> " + "{\n" +
        "        " + "match " + "self " + "{\n" +
        "            " + "Self::Invali" + "dInput " + "=> " + "b\"Invalid " + "input\".to_ve" + "c(),\n" +
        "            " + "Self::ZeroAd" + "dress " + "=> " + "b\"Zero " + "address\".to_" + "vec(),\n" +
        "            " + "Self::Inacti" + "veData " + "=> " + "b\"Inactive " + "data\".to_vec" + "(),\n" +
        "        " + "}\n" +
        "    " + "}\n" +
        "}\n")
  ]

  const InterfacePieces: seq<string> := [
    ("// " + "Interfaces " + "are " + "not " + "directly " + "supported " + "in " + "Rust/Stylus\n" +
        "// " + "Use " + "traits " + "instead " + "for " + "similar " + "functionalit" + "y\n" +
        "// " + "\n" +
        "// " + "Example " + "trait " + "definition:\n" +
        "//\n" +
        "// " + "pub " + "trait "),
    (" {\n" +
        "// " + "    " + "fn " + "example_func" + "tion(&self) " + "-> " + "bool;\n" +
        "// " + "}\n")
  ]

  const AbstractPieces: seq<string> := [
    ("// " + "Abstract " + "contracts " + "are " + "not " + "supported " + "in " + "Rust/Stylus\n" +
        "// " + "Use " + "traits " + "for " + "similar " + "patterns\n" +
        "//\n" +
        "// " + "Example " + "trait " + "with " + "default " + "implementati" + "ons:\n" +
        "//\n" +
        "// " + "pub " + "trait "),
    (" {\n" +
        "// " + "    " + "fn " + "abstract_fun" + "ction(&self)" + " -> " + "U256;\n" +
        "// " + "    " + "\n" +
        "// " + "    " + "fn " + "concrete_fun" + "ction(&self)" + " -> " + "String " + "{\n" +
        "// " + "        " + "\"This " + "is " + "a " + "concrete " + "function\".to" + "_string()\n" +
        "// " + "    " + "}\n" +
        "// " + "}\n")
  ]

  function GenerateTest(t: StylusTemplate): string
  {
    Format(TestPieces, [t.contractName])
  }

  /** Deployment notes, since a Stylus project has no deployment scripts. */
  function GenerateScript(t: StylusTemplate): string
  {
    Format(ScriptPieces, [t.contractName])
  }

  function GenerateLibrary(t: StylusTemplate): string
  {
    var name := t.contractName;
    Format(LibraryPieces, [name, name, name, name, SnakeName(name), name, name])
  }

  function GenerateInterface(t: StylusTemplate): string
  {
    Format(InterfacePieces, [t.contractName])
  }

  function GenerateAbstract(t: StylusTemplate): string
  {
    Format(AbstractPieces, [t.contractName])
  }

  /** None of these texts looks at the contract type: any type, even an unsupported one, gives the same text. */
  lemma NameOnlyTexts(t: StylusTemplate, u: StylusTemplate)
    requires t.contractName == u.contractName
    ensures GenerateTest(t) == GenerateTest(u)
    ensures GenerateScript(t) == GenerateScript(u)
    ensures GenerateLibrary(t) == GenerateLibrary(u)
    ensures GenerateInterface(t) == GenerateInterface(u)
    ensures GenerateAbstract(t) == GenerateAbstract(u)
  {
  }

  /** The library's utility module is named by the snake-case form of the name. */
  lemma LibraryNamesModule(t: StylusTemplate)
    ensures Contains(GenerateLibrary(t), SnakeName(t.contractName))
  {
    var name := t.contractName;
    FormatContainsArg(LibraryPieces, [name, name, name, name, SnakeName(name), name, name], 4);
  }

  /** The test, the deployment notes, the library, the interface and the abstract text each name the contract. */
  lemma TextsNameContract(t: StylusTemplate)
    ensures Contains(GenerateTest(t), t.contractName)
    ensures Contains(GenerateScript(t), t.contractName)
    ensures Contains(GenerateLibrary(t), t.contractName)
    ensures Contains(GenerateInterface(t), t.contractName)
    ensures Contains(GenerateAbstract(t), t.contractName)
  {
    var name := t.contractName;
    FormatContainsArg(TestPieces, [name], 0);
    FormatContainsArg(ScriptPieces, [name], 0);
    FormatContainsArg(LibraryPieces, [name, name, name, name, SnakeName(name), name, name], 0);
    FormatContainsArg(InterfacePieces, [name], 0);
    FormatContainsArg(AbstractPieces, [name], 0);
  }

  // ---------------------------------------------------------------------
  // Snake case

  /** How many upper-case letters `s` holds. */
  function UpperCount(s: string): (r: nat)
    ensures r <= |s|
  {
    if |s| == 0 then 0 else (if IsUpper(s[0]) then 1 else 0) + UpperCount(s[1..])
  }

  /** The snake-case text of `s`, whose first character sits at index `i` of the whole name. */
  function SnakeFrom(s: string, i: nat): (r: string)
    ensures forall k :: 0 <= k < |r| ==> !IsUpper(r[k])
    ensures i > 0 ==> |r| == |s| + UpperCount(s)
    decreases |s|
  {
    if |s| == 0 then ""
    else
      (if IsUpper(s[0]) && i > 0 then "_" + [ToLowerChar(s[0])] else [ToLowerChar(s[0])])
      + SnakeFrom(s[1..], i + 1)
  }

  /**
   * The module name of a Stylus library: every character lower-cased, and
   * an underscore before each upper-case letter except a leading one.
   */
  function SnakeName(name: string): (r: string)
    ensures forall k :: 0 <= k < |r| ==> !IsUpper(r[k])
    ensures |name| == 0 ==> r == ""
    ensures |name| > 0 ==> |r| == |name| + UpperCount(name[1..]) && r[0] == ToLowerChar(name[0])
  {
    SnakeFrom(name, 0)
  }

  /** A name with no upper-case letters is its own snake-case form. */
  lemma {:induction false} SnakeOfLowerCase(s: string, i: nat)
    requires forall k :: 0 <= k < |s| ==> !IsUpper(s[k])
    ensures SnakeFrom(s, i) == s
    decreases |s|
  {
    if |s| > 0 {
      SnakeOfLowerCase(s[1..], i + 1);
      assert s == [s[0]] + s[1..];
    }
  }

  /** Snake case is idempotent. */
  lemma SnakeIdempotent(name: string)
    ensures SnakeName(SnakeName(name)) == SnakeName(name)
  {
    SnakeOfLowerCase(SnakeName(name), 0);
  }

  lemma SnakeOfLibSuffix()
    ensures SnakeFrom("Lib", 4) == "_lib"
  {
    var w := "Lib";
    assert SnakeFrom(w[2..], 6) == "b" by {
      assert w[2..] == "b" && w[3..] == "";
    }
    assert SnakeFrom(w[1..], 5) == "ib" by {
      assert w[1..] == "ib" && w[1..][1..] == w[2..];
    }
    assert ToLowerChar('L') == 'l';
  }

  lemma SnakeOfThLib()
    ensures SnakeFrom("thLib", 2) == "th_lib"
  {
    var w := "thLib";
    SnakeOfLibSuffix();
    assert SnakeFrom(w[1..], 3) == "h_lib" by {
      assert w[1..] == "hLib" && w[1..][1..] == "Lib";
    }
    assert w[1..] == "hLib";
  }

  lemma SnakeOfCamelCase()
    ensures SnakeName("MathLib") == "math_lib"
  {
    var w := "MathLib";
    SnakeOfThLib();
    assert SnakeFrom(w[1..], 1) == "ath_lib" by {
      assert w[1..] == "athLib" && w[1..][1..] == "thLib";
    }
    assert ToLowerChar('M') == 'm';
  }

  lemma SnakeOfCapitals()
    ensures SnakeName("ABC") == "a_b_c"
  {
    assert SnakeFrom("C", 2) == "_c";
    assert SnakeFrom("BC", 1) == "_b_c";
  }
}
