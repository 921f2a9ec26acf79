/**
 * The shared vocabulary of the scaffolder: the kinds of contract it can
 * write and the OpenZeppelin token extensions a contract may mix in.
 */
module Contracts {
  import opened Errors

  /** The 23 token extensions, in declaration order, grouped by token standard. */
  datatype TokenExtension =
    // ERC20 family
    | ERC20Permit | ERC20Burnable | ERC20Capped | ERC20Pausable | ERC20Votes
    | ERC20Wrapper | ERC20FlashMint | ERC20TemporaryApproval | ERC20Bridgeable
    | ERC1363 | ERC4626
    // ERC721 family
    | ERC721Pausable | ERC721Burnable | ERC721Consecutive | ERC721URIStorage
    | ERC721Votes | ERC721Royalty | ERC721Wrapper | ERC721Enumerable
    // ERC1155 family
    | ERC1155Pausable | ERC1155Burnable | ERC1155Supply | ERC1155URIStorage

  /** What a generated contract is; `MultiInheritance` is a base plus extensions. */
  datatype ContractType =
    | Basic
    | ERC20 | ERC721 | ERC1155
    | ERC20Upgradeable | ERC721Upgradeable | ERC1155Upgradeable
    | Interface
    | Abstract
    | MultiInheritance(baseType: ContractType, extensions: seq<TokenExtension>)

  /** The pragma and licence a Solidity file gets when none is given. */
  const DefaultPragma := "0.8.30"
  const DefaultLicense := "UNLICENSED"

  /** The three token standards. */
  datatype Family = Fungible | NonFungible | MultiToken

  /** The standard a base type belongs to; upgradeable bases share their plain base's standard. */
  function FamilyOf(t: ContractType): Option<Family>
  {
    match t
    case ERC20 | ERC20Upgradeable => Some(Fungible)
    case ERC721 | ERC721Upgradeable => Some(NonFungible)
    case ERC1155 | ERC1155Upgradeable => Some(MultiToken)
    case _ => None
  }

  /** The standard an extension is written for (the group it is declared in). */
  function NativeFamily(e: TokenExtension): Family
  {
    match e
    case ERC20Permit | ERC20Burnable | ERC20Capped | ERC20Pausable | ERC20Votes
      | ERC20Wrapper | ERC20FlashMint | ERC20TemporaryApproval | ERC20Bridgeable
      | ERC1363 | ERC4626 => Fungible
    case ERC721Pausable | ERC721Burnable | ERC721Consecutive | ERC721URIStorage
      | ERC721Votes | ERC721Royalty | ERC721Wrapper | ERC721Enumerable => NonFungible
    case ERC1155Pausable | ERC1155Burnable | ERC1155Supply | ERC1155URIStorage => MultiToken
  }

  predicate IsPlainBase(t: ContractType)
  {
    t == ERC20 || t == ERC721 || t == ERC1155
  }

  predicate IsUpgradeableBase(t: ContractType)
  {
    t == ERC20Upgradeable || t == ERC721Upgradeable || t == ERC1155Upgradeable
  }

  /** The `{:?}` rendering of an extension: its variant name. */
  function ExtensionName(e: TokenExtension): string
  {
    match e
    case ERC20Permit => "ERC20Permit"
    case ERC20Burnable => "ERC20Burnable"
    case ERC20Capped => "ERC20Capped"
    case ERC20Pausable => "ERC20Pausable"
    case ERC20Votes => "ERC20Votes"
    case ERC20Wrapper => "ERC20Wrapper"
    case ERC20FlashMint => "ERC20FlashMint"
    case ERC20TemporaryApproval => "ERC20TemporaryApproval"
    case ERC20Bridgeable => "ERC20Bridgeable"
    case ERC1363 => "ERC1363"
    case ERC4626 => "ERC4626"
    case ERC721Pausable => "ERC721Pausable"
    case ERC721Burnable => "ERC721Burnable"
    case ERC721Consecutive => "ERC721Consecutive"
    case ERC721URIStorage => "ERC721URIStorage"
    case ERC721Votes => "ERC721Votes"
    case ERC721Royalty => "ERC721Royalty"
    case ERC721Wrapper => "ERC721Wrapper"
    case ERC721Enumerable => "ERC721Enumerable"
    case ERC1155Pausable => "ERC1155Pausable"
    case ERC1155Burnable => "ERC1155Burnable"
    case ERC1155Supply => "ERC1155Supply"
    case ERC1155URIStorage => "ERC1155URIStorage"
  }

  function ExtensionNames(es: seq<TokenExtension>): string
  {
    if |es| == 0 then ""
    else if |es| == 1 then ExtensionName(es[0])
    else ExtensionName(es[0]) + ", " + ExtensionNames(es[1..])
  }

  /** The `{:?}` rendering of a contract type (struct variants print their fields). */
  function ContractTypeName(t: ContractType): string
  {
    match t
    case Basic => "Basic"
    case ERC20 => "ERC20"
    case ERC721 => "ERC721"
    case ERC1155 => "ERC1155"
    case ERC20Upgradeable => "ERC20Upgradeable"
    case ERC721Upgradeable => "ERC721Upgradeable"
    case ERC1155Upgradeable => "ERC1155Upgradeable"
    case Interface => "Interface"
    case Abstract => "Abstract"
    case MultiInheritance(b, es) =>
      "MultiInheritance { base_type: " + ContractTypeName(b) + ", extensions: [" + ExtensionNames(es) + "] }"
  }
}
