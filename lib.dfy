/**
 * The library's entry points: parsing extension names given on the command
 * line, and the contract builder.
 */
module Gramr {
  import opened Errors
  import opened Contracts
  import opened Chars
  import opened Text
  import opened SolidityTemplates

  // ---------------------------------------------------------------------
  // Extension names

  /** The extension a lower-case command-line name stands for. */
  function ExtensionForName(lower: string): Option<TokenExtension>
  {
    if lower == "permit" then Some(ERC20Permit)
    else if lower == "burnable" then Some(ERC20Burnable)
    else if lower == "capped" then Some(ERC20Capped)
    else if lower == "pausable" then Some(ERC20Pausable)
    else if lower == "votes" then Some(ERC20Votes)
    else if lower == "wrapper" then Some(ERC20Wrapper)
    else if lower == "flashmint" then Some(ERC20FlashMint)
    else if lower == ("temporaryapp" + "roval") then Some(ERC20TemporaryApproval)
    else if lower == "bridgeable" then Some(ERC20Bridgeable)
    else if lower == "erc1363" then Some(ERC1363)
    else if lower == "erc4626" then Some(ERC4626)
    else if lower == "consecutive" then Some(ERC721Consecutive)
    else if lower == "uristorage" then Some(ERC721URIStorage)
    else if lower == "royalty" then Some(ERC721Royalty)
    else if lower == "enumerable" then Some(ERC721Enumerable)
    else if lower == "supply" then Some(ERC1155Supply)
    else None
  }

  /**
   * The name under which the parser accepts an extension, for the sixteen
   * extensions it can produce; the others have no command-line name.
   */
  function ExtensionKeyword(e: TokenExtension): Option<string>
  {
    match e
    case ERC20Permit => Some("permit")
    case ERC20Burnable => Some("burnable")
    case ERC20Capped => Some("capped")
    case ERC20Pausable => Some("pausable")
    case ERC20Votes => Some("votes")
    case ERC20Wrapper => Some("wrapper")
    case ERC20FlashMint => Some("flashmint")
    case ERC20TemporaryApproval => Some(("temporaryapp" + "roval"))
    case ERC20Bridgeable => Some("bridgeable")
    case ERC1363 => Some("erc1363")
    case ERC4626 => Some("erc4626")
    case ERC721Consecutive => Some("consecutive")
    case ERC721URIStorage => Some("uristorage")
    case ERC721Royalty => Some("royalty")
    case ERC721Enumerable => Some("enumerable")
    case ERC1155Supply => Some("supply")
    case _ => None
  }

  const AvailableExtensions := ". Available extensions: permit, burnable, capped, pausable, votes, wrapper, flashmint, temporaryapproval, bridgeable, erc1363, erc4626, consecutive, uristorage, royalty, wrapper, enumerable, supply"

  /** The error for a name outside the table; it quotes the name as given, not lower-cased. */
  function UnknownExtension(ext: string): GramrError
  {
    Other(("Unknown " + "extension: ") + ext + AvailableExtensions)
  }

  /** One name: looked up lower-cased, without trimming. */
  function ParseExtension(ext: string): (r: Result<TokenExtension>)
    ensures r.Ok? <==> ExtensionForName(ToLower(ext)).Some?
    ensures r.Err? ==> r.error == UnknownExtension(ext)
  {
    match ExtensionForName(ToLower(ext))
    case Some(e) => Ok(e)
    case None => Err(UnknownExtension(ext))
  }

  /** Every name in order; the first unknown name fails the whole list. */
  function ParseAll(names: seq<string>): (r: Result<seq<TokenExtension>>)
    ensures r.Ok? ==> |r.value| == |names|
  {
    if |names| == 0 then Ok([])
    else match ParseExtension(names[0])
      case Err(e) => Err(e)
      case Ok(x) =>
        match ParseAll(names[1..])
        case Err(e) => Err(e)
        case Ok(rest) => Ok([x] + rest)
  }

  /** `parse_extensions`: pushes each parsed name, returning at the first failure. */
  method ParseExtensions(extensions: seq<string>) returns (r: Result<seq<TokenExtension>>)
    ensures r == ParseAll(extensions)
  {
    var result: seq<TokenExtension> := [];
    for i := 0 to |extensions|
      invariant |result| == i
      invariant forall j :: 0 <= j < i ==> ParseExtension(extensions[j]) == Ok(result[j])
    {
      var parsed := ParseExtension(extensions[i]);
      if parsed.Err? {
        ParseAllFailsAtFirst(extensions, i);
        return Err(parsed.error);
      }
      result := result + [parsed.value];
    }
    ParseAllSucceeds(extensions);
    var v := ParseAll(extensions).value;
    assert forall j :: 0 <= j < |result| ==> result[j] == v[j] by {
      forall j | 0 <= j < |result| ensures result[j] == v[j] {
        assert ParseExtension(extensions[j]) == Ok(result[j]) == Ok(v[j]);
      }
    }
    assert |result| == |v|;
    assert result == v;
    return Ok(result);
  }

  /** When every name parses, the list parses to the names' extensions, position by position. */
  lemma {:induction false} ParseAllSucceeds(names: seq<string>)
    requires forall j :: 0 <= j < |names| ==> ParseExtension(names[j]).Ok?
    ensures ParseAll(names).Ok?
    ensures forall j :: 0 <= j < |names| ==> ParseExtension(names[j]) == Ok(ParseAll(names).value[j])
  {
    if |names| > 0 {
      ParseAllSucceeds(names[1..]);
      var rest := ParseAll(names[1..]).value;
      var v := ParseAll(names).value;
      assert v == [ParseExtension(names[0]).value] + rest;
      forall j | 0 <= j < |names| ensures ParseExtension(names[j]) == Ok(v[j]) {
        if j > 0 {
          assert names[j] == names[1..][j - 1];
        }
      }
    }
  }

  /** The error of a list is the error of its first unknown name. */
  lemma {:induction false} ParseAllFailsAtFirst(names: seq<string>, k: nat)
    requires k < |names|
    requires forall j :: 0 <= j < k ==> ParseExtension(names[j]).Ok?
    requires ParseExtension(names[k]).Err?
    ensures ParseAll(names) == Err(UnknownExtension(names[k]))
  {
    if k > 0 {
      assert ParseExtension(names[0]).Ok?;
      forall j | 0 <= j < k - 1 ensures ParseExtension(names[1..][j]).Ok? {
        assert names[1..][j] == names[j + 1];
      }
      ParseAllFailsAtFirst(names[1..], k - 1);
    }
  }

  /** A list parses exactly when each of its names does: there is no partial result. */
  lemma {:induction false} ParseAllOkIff(names: seq<string>)
    ensures ParseAll(names).Ok? <==> forall j :: 0 <= j < |names| ==> ParseExtension(names[j]).Ok?
  {
    if forall j :: 0 <= j < |names| ==> ParseExtension(names[j]).Ok? {
      ParseAllSucceeds(names);
    } else {
      var k :| 0 <= k < |names| && ParseExtension(names[k]).Err?;
      FirstFailure(names, k);
    }
  }

  /** From some failing position, the first failing position. */
  lemma {:induction false} FirstFailure(names: seq<string>, k: nat)
    requires k < |names| && ParseExtension(names[k]).Err?
    ensures ParseAll(names).Err?
    decreases k
  {
    if forall j :: 0 <= j < k ==> ParseExtension(names[j]).Ok? {
      ParseAllFailsAtFirst(names, k);
    } else {
      var j :| 0 <= j < k && ParseExtension(names[j]).Err?;
      FirstFailure(names, j);
    }
  }

  /** Case does not matter: a name and its lower-case form parse to the same extension. */
  lemma ParseIgnoresCase(ext: string)
    ensures ParseExtension(ToLower(ext)).Ok? <==> ParseExtension(ext).Ok?
    ensures ParseExtension(ext).Ok? ==> ParseExtension(ToLower(ext)) == ParseExtension(ext)
  {
    ToLowerIdempotent(ext);
  }

  /** Every keyword parses back to its extension. */
  lemma KeywordParses(e: TokenExtension)
    requires ExtensionKeyword(e).Some?
    ensures ParseExtension(ExtensionKeyword(e).value) == Ok(e)
  {
    LowerIsFixed(ExtensionKeyword(e).value);
    if e.ERC20Permit? || e.ERC20Burnable? || e.ERC20Capped? || e.ERC20Pausable? || e.ERC20Votes? {
      KeywordFound(e);
    } else if e.ERC20Wrapper? || e.ERC20FlashMint? || e.ERC20TemporaryApproval? || e.ERC20Bridgeable? || e.ERC1363? || e.ERC4626? {
      LaterKeywordFound(e);
    } else if e.ERC721Consecutive? || e.ERC721URIStorage? || e.ERC721Royalty? {
      LastKeywordFound(e);
    } else {
      assert e.ERC721Enumerable? || e.ERC1155Supply?;
      FinalKeywordFound(e);
    }
  }

  lemma KeywordFound(e: TokenExtension)
    requires e.ERC20Permit? || e.ERC20Burnable? || e.ERC20Capped? || e.ERC20Pausable? || e.ERC20Votes?
    ensures ExtensionForName(ExtensionKeyword(e).value) == Some(e)
  {
  }

  lemma LaterKeywordFound(e: TokenExtension)
    requires e.ERC20Wrapper? || e.ERC20FlashMint? || e.ERC20TemporaryApproval? || e.ERC20Bridgeable? || e.ERC1363? || e.ERC4626?
    ensures ExtensionForName(ExtensionKeyword(e).value) == Some(e)
  {
  }

  lemma LastKeywordFound(e: TokenExtension)
    requires e.ERC721Consecutive? || e.ERC721URIStorage? || e.ERC721Royalty?
    ensures ExtensionForName(ExtensionKeyword(e).value) == Some(e)
  {
  }

  lemma FinalKeywordFound(e: TokenExtension)
    requires e.ERC721Enumerable? || e.ERC1155Supply?
    ensures ExtensionForName(ExtensionKeyword(e).value) == Some(e)
  {
  }

  /** A name parses to `e` only when its lower-case form is `e`'s keyword. */
  lemma ParsedNameIsKeyword(ext: string, e: TokenExtension)
    requires ParseExtension(ext) == Ok(e)
    ensures ExtensionKeyword(e) == Some(ToLower(ext))
  {
  }

  /**
   * The parser's range: the fungible extensions, four non-fungible ones and
   * one multi-token one; the shared words give the fungible variant.
   */
  lemma ParserRange(ext: string)
    requires ParseExtension(ext).Ok?
    ensures var e := ParseExtension(ext).value;
      NativeFamily(e) == Fungible
      || e in {ERC721Consecutive, ERC721URIStorage, ERC721Royalty, ERC721Enumerable, ERC1155Supply}
  {
  }

  /** Upper- and mixed-case names parse. */
  lemma MixedCaseNamesParse()
    ensures ParseExtension("BURNABLE") == Ok(ERC20Burnable)
    ensures ParseExtension("Pausable") == Ok(ERC20Pausable)
    ensures ParseExtension("peRmIt") == Ok(ERC20Permit)
  {
    assert ToLower("BURNABLE") == "burnable";
    assert ToLower("Pausable") == "pausable";
    assert ToLower("peRmIt") == "permit";
  }

  /** Surrounding blanks are not trimmed. */
  lemma PaddedNameFails()
    ensures ParseExtension(" burnable ") == Err(UnknownExtension(" burnable "))
  {
    assert ToLower(" burnable ") == " burnable ";
  }

  /** An empty list parses to the empty list; duplicates are kept. */
  lemma ParseListExamples()
    ensures ParseAll([]) == Ok([])
    ensures ParseAll(["burnable", "Burnable"]) == Ok([ERC20Burnable, ERC20Burnable])
  {
    assert ToLower("Burnable") == "burnable";
    assert ToLower("burnable") == "burnable";
    var names := ["burnable", "Burnable"];
    assert ParseExtension("Burnable") == Ok(ERC20Burnable);
    assert ParseExtension("burnable") == Ok(ERC20Burnable);
    var one := ["Burnable"];
    assert names[1..] == one && one[0] == "Burnable";
    assert one[1..] == [] && ParseAll(one[1..]) == Ok([]);
    assert [ERC20Burnable] + [] == [ERC20Burnable];
    assert ParseAll(one) == Ok([ERC20Burnable]);
    assert [ERC20Burnable] + [ERC20Burnable] == [ERC20Burnable, ERC20Burnable];
  }

  // ---------------------------------------------------------------------
  // Contract builder

  /** A Solidity contract request assembled field by field. */
  datatype ContractBuilder = ContractBuilder(
    name: string,
    contractType: ContractType,
    pragma: string,
    license: string)

  /** A fresh builder: a basic contract with the default pragma and licence. */
  function NewBuilder(name: string): (r: ContractBuilder)
    ensures r.name == name && r.contractType == Basic
    ensures r.pragma == DefaultPragma && r.license == DefaultLicense
  {
    ContractBuilder(name, Basic, DefaultPragma, DefaultLicense)
  }

  function WithContractType(b: ContractBuilder, t: ContractType): (r: ContractBuilder)
    ensures r.contractType == t
    ensures r.name == b.name && r.pragma == b.pragma && r.license == b.license
  {
    b.(contractType := t)
  }

  function WithPragma(b: ContractBuilder, pragma: string): (r: ContractBuilder)
    ensures r.pragma == pragma
    ensures r.name == b.name && r.contractType == b.contractType && r.license == b.license
  {
    b.(pragma := pragma)
  }

  function WithLicense(b: ContractBuilder, license: string): (r: ContractBuilder)
    ensures r.license == license
    ensures r.name == b.name && r.contractType == b.contractType && r.pragma == b.pragma
  {
    b.(license := license)
  }

  /** The template the builder stands for. */
  function Template(b: ContractBuilder): SolidityTemplate
  {
    SolidityTemplate(b.name, b.contractType, b.pragma, b.license)
  }

  /** The contract text: the Solidity template's contract for the builder's fields. */
  function Build(b: ContractBuilder): (r: string)
    requires Renderable(b.contractType)
    ensures r == GenerateContract(Template(b))
    ensures Header(b.license, b.pragma) <= r
    ensures Contains(r, b.name)
  {
    ContractNamesItself(Template(b));
    GenerateContract(Template(b))
  }

  /** The setters commute: the built text depends only on the final field values. */
  lemma SettersCommute(b: ContractBuilder, t: ContractType, pragma: string, license: string)
    ensures WithLicense(WithPragma(WithContractType(b, t), pragma), license)
         == WithContractType(WithPragma(WithLicense(b, license), pragma), t)
  {
  }

  /** A builder left at its defaults opens its contract with the default licence and pragma. */
  lemma DefaultBuildHeader(name: string)
    ensures Header(DefaultLicense, DefaultPragma) <= Build(NewBuilder(name))
    ensures Contains(Build(NewBuilder(name)), name)
  {
    ContractNamesItself(Template(NewBuilder(name)));
  }
}
