/**
 * The Solidity template: the text of a contract, its Foundry test and its
 * deployment script, and the composer that turns a base type plus a list
 * of extensions into one contract inheriting from all of them.
 */
module SolidityTemplates {
  import opened Errors
  import opened Contracts
  import opened Chars
  import opened Text

  datatype SolidityTemplate = SolidityTemplate(
    contractName: string,
    contractType: ContractType,
    pragma: string,
    license: string)

  const SpdxPrefix := ("// " + "SPDX-License" + "-Identifier:" + " ")
  const PragmaPrefix := ("\n" +
      "pragma " + "solidity " + "^")

  /** The licence line and the pragma line every generated file opens with. */
  function Header(license: string, pragma: string): string
  {
    SpdxPrefix + license + PragmaPrefix + pragma + ";"
  }

  /** The types this template has a contract for (the source has no arm for the other two). */
  predicate Renderable(t: ContractType)
  {
    t != Interface && t != Abstract
  }

  /** The pieces of a template whose first two holes are the licence and the pragma, `holes` in all. */
  predicate HeaderShaped(pieces: seq<string>, holes: nat)
  {
    |pieces| == holes + 3 && pieces[0] == SpdxPrefix && pieces[1] == PragmaPrefix && ";" <= pieces[2]
  }

  /** A `format!` whose first two holes are the licence and the pragma. */
  function Render(pieces: seq<string>, license: string, pragma: string, rest: seq<string>): (r: string)
    requires HeaderShaped(pieces, |rest|)
    ensures Header(license, pragma) <= r
  {
    var args := [license, pragma] + rest;
    FormatHead(pieces, args);
    var r := Format(pieces, args);
    var long := pieces[0] + args[0] + pieces[1] + args[1] + pieces[2];
    var h := Header(license, pragma);
    assert h == pieces[0] + args[0] + pieces[1] + args[1] + ";";
    assert long[..|h|] == h;
    assert r[..|long|] == long;
    r
  }

  /** Every argument after the licence and the pragma appears in the rendered text. */
  lemma RenderContains(pieces: seq<string>, license: string, pragma: string, rest: seq<string>, i: nat)
    requires HeaderShaped(pieces, |rest|) && i < |rest|
    ensures Contains(Render(pieces, license, pragma, rest), rest[i])
  {
    var args := [license, pragma] + rest;
    assert args[i + 2] == rest[i];
    FormatContainsArg(pieces, args, i + 2);
  }

  /** Two arguments whose holes are adjacent appear side by side, after the tail `q` of the piece before them. */
  lemma RenderContainsAdjacent(pieces: seq<string>, license: string, pragma: string, rest: seq<string>, i: nat, q: string)
    requires HeaderShaped(pieces, |rest|) && i + 1 < |rest|
    requires IsSuffix(q, pieces[i + 2]) && pieces[i + 3] == ""
    ensures Contains(Render(pieces, license, pragma, rest), q + rest[i] + rest[i + 1])
  {
    var args := [license, pragma] + rest;
    assert args[i + 2] == rest[i] && args[i + 3] == rest[i + 1];
    FormatContainsAdjacent(pieces, args, i + 2, q);
  }

  // ---------------------------------------------------------------------
  // Symbol

  /** The upper-case letters of `s`, in order. */
  function UppercaseLetters(s: string): (r: string)
    ensures |r| <= |s|
    ensures forall i :: 0 <= i < |r| ==> IsUpper(r[i])
    ensures (forall i :: 0 <= i < |s| ==> !IsUpper(s[i])) ==> r == ""
    ensures (forall i :: 0 <= i < |s| ==> IsUpper(s[i])) ==> r == s
  {
    if |s| == 0 then ""
    else (if IsUpper(s[0]) then [s[0]] else "") + UppercaseLetters(s[1..])
  }

  /** The token symbol: the first three upper-case letters of the contract name. */
  function GetSymbol(name: string): (r: string)
    ensures |r| <= 3
    ensures r <= UppercaseLetters(name)
    ensures |r| == if |UppercaseLetters(name)| < 3 then |UppercaseLetters(name)| else 3
  {
    var u := UppercaseLetters(name);
    var taken := if |u| <= 3 then u else u[..3];
    assert ToUpper(taken) == taken;
    ToUpper(taken)
  }

  /** A name with three or more capitals yields its first three. */
  lemma SymbolOfCamelCaseName()
    ensures GetSymbol("MyNewToken") == "MNT"
  {
    UppercaseOfNewToken();
    assert UppercaseLetters("MyNewToken") == "MNT" by {
      assert "MyNewToken"[1..] == "yNewToken" && "yNewToken"[1..] == "NewToken";
    }
  }

  lemma UppercaseOfNewToken()
    ensures UppercaseLetters("NewToken") == "NT"
  {
    assert UppercaseLetters("Token") == "T";
  }

  /** Only the first three capitals are kept. */
  lemma SymbolTruncated()
    ensures GetSymbol("ABCD") == "ABC"
  {
  }

  /** A name with one capital yields a one-letter symbol. */
  lemma SymbolOfSingleCapital()
    ensures GetSymbol("Token") == "T"
  {
  }

  /** A name without capitals yields an empty symbol. */
  lemma SymbolOfLowercaseName()
    ensures GetSymbol("lowercase") == ""
  {
  }

  // ---------------------------------------------------------------------
  // Extensions

  /**
   * The variant of a generic extension that suits the base standard: a
   * burnable, pausable or wrapper request on a non-fungible base and a
   * burnable, pausable or URI-storage request on a multi-token base become
   * that standard's own extension; everything else is kept.
   */
  function ConvertExtension(base: ContractType, e: TokenExtension): TokenExtension
  {
    match base
    case ERC721 | ERC721Upgradeable =>
      (match e
       case ERC20Burnable => ERC721Burnable
       case ERC20Pausable => ERC721Pausable
       case ERC20Wrapper => ERC721Wrapper
       case _ => e)
    case ERC1155 | ERC1155Upgradeable =>
      (match e
       case ERC20Burnable => ERC1155Burnable
       case ERC20Pausable => ERC1155Pausable
       case ERC721URIStorage => ERC1155URIStorage
       case _ => e)
    case _ => e
  }

  /** The six (base, extension) pairs that are rewritten, listed by standard. */
  predicate IsCrossPair(base: ContractType, e: TokenExtension)
  {
    (FamilyOf(base) == Some(NonFungible) && e in {ERC20Burnable, ERC20Pausable, ERC20Wrapper})
    || (FamilyOf(base) == Some(MultiToken) && e in {ERC20Burnable, ERC20Pausable, ERC721URIStorage})
  }

  lemma ConvertOnlyCrossPairs(base: ContractType, e: TokenExtension)
    ensures ConvertExtension(base, e) != e <==> IsCrossPair(base, e)
    ensures IsCrossPair(base, e) ==> NativeFamily(ConvertExtension(base, e)) == FamilyOf(base).value
  {
  }

  lemma ConvertIdempotent(base: ContractType, e: TokenExtension)
    ensures ConvertExtension(base, ConvertExtension(base, e)) == ConvertExtension(base, e)
  {
  }

  /** What one extension adds to the composed contract. */
  datatype Components = Components(importLines: string, inherit: string, init: string, functions: string)

  const PauseFunctions := ("    " + "function " + "pause() " + "public " + "onlyOwner " + "{\n" +
      "        " + "_pause();\n" +
      "    " + "}\n" +
      "\n" +
      "    " + "function " + "unpause() " + "public " + "onlyOwner " + "{\n" +
      "        " + "_unpause();\n" +
      "    " + "}")

  const EnumerableFunctions := ("    " + "function " + "supportsInte" + "rface(bytes4" + " interfaceId" + ") " + "public " + "view " +
      "virtual " + "override(ERC" + "721, " + "ERC721Enumer" + "able) " + "returns " + "(bool) " + "{\n" +
      "        " + "return " + "super.suppor" + "tsInterface(" + "interfaceId)" + ";\n" +
      "    " + "}\n" +
      "\n" +
      "    " + "function " + "_update(addr" + "ess " + "to, " + "uint256 " + "tokenId, " + "address " +
      "auth) " + "internal " + "virtual " + "override(ERC" + "721, " + "ERC721Enumer" + "able) " + "returns " +
      "(address) " + "{\n" +
      "        " + "return " + "super._updat" + "e(to, " + "tokenId, " + "auth);\n" +
      "    " + "}\n" +
      "\n" +
      "    " + "function " + "_increaseBal" + "ance(address" + " account, " + "uint128 " + "value) " + "internal " +
      "virtual " + "override(ERC" + "721, " + "ERC721Enumer" + "able) " + "{\n" +
      "        " + "super._incre" + "aseBalance(a" + "ccount, " + "value);\n" +
      "    " + "}")

  const WrapperFunctions := ("    " + "// " + "ERC721Wrappe" + "r " + "requires " + "an " + "underlying " + "token " +
      "address\n" +
      "    " + "// " + "Replace " + "with " + "actual " + "token " + "address " + "when " +
      "deploying\n" +
      "    " + "address " + "constant " + "UNDERLYING_T" + "OKEN " + "= " + "address(0x0)" + ";")

  const UriFunctions := ("    " + "function " + "uri(uint256 " + "tokenId) " + "public " + "view " + "virtual " + "override(ERC" +
      "1155, " + "ERC1155URISt" + "orage) " + "returns " + "(string " + "memory) " + "{\n" +
      "        " + "return " + "super.uri(to" + "kenId);\n" +
      "    " + "}")

  /** A Solidity import statement for `path`. */
  function ImportLine(path: string): (r: string)
    ensures r != ""
  {
    "import \"" + path + "\";"
  }

  /** The token directory of a standard in the OpenZeppelin package. */
  function StandardDir(f: Family): string
  {
    match f
    case Fungible => "ERC20"
    case NonFungible => "ERC721"
    case MultiToken => "ERC1155"
  }

  /** The file an extension lives in: its own name, with a `draft-` prefix for the two draft extensions. */
  function ExtensionFile(e: TokenExtension): string
  {
    if e == ERC20TemporaryApproval || e == ERC20Bridgeable then "draft-" + ExtensionName(e) else ExtensionName(e)
  }

  /** `@openzeppelin/contracts/token/<standard>/extensions/<file>.sol`, imported. */
  function ExtensionImport(e: TokenExtension): string
  {
    ImportLine(("@openzeppeli" + "n/contracts/" + "token/") + StandardDir(NativeFamily(e)) + "/extensions/" + ExtensionFile(e) + ".sol")
  }

  const EIP712Import := ("import " + "\"@openzeppel" + "in/contracts" + "/utils/crypt" + "ography/EIP7" + "12.sol\";")
  const IERC721Import := ("import " + "\"@openzeppel" + "in/contracts" + "/token/ERC72" + "1/IERC721.so" + "l\";")

  /** The votes extensions also need EIP712; the non-fungible wrapper also needs IERC721. */
  function ExtensionImports(e: TokenExtension): (r: string)
    ensures ExtensionImport(e) <= r
  {
    if e == ERC20Votes || e == ERC721Votes then ExtensionImport(e) + "\n" + EIP712Import
    else if e == ERC721Wrapper then ExtensionImport(e) + "\n" + IERC721Import
    else ExtensionImport(e)
  }

  /** The inheritance token: the extension's name, followed by EIP712 for the votes extensions. */
  function ExtensionInherit(e: TokenExtension): (r: string)
    ensures ExtensionName(e) <= r && r != ""
  {
    if e == ERC20Votes || e == ERC721Votes then ExtensionName(e) + ", EIP712" else ExtensionName(e)
  }

  /** Which extensions bring function bodies of their own. */
  predicate HasFunctions(e: TokenExtension)
  {
    e in {ERC20Pausable, ERC721Pausable, ERC1155Pausable, ERC721Enumerable, ERC721Wrapper, ERC1155URIStorage}
  }

  /** The functions an extension adds: pause controls, overrides required by Solidity, or the wrapper's token address. */
  function ExtensionFunctions(e: TokenExtension): (r: string)
    ensures |r| > 0 <==> HasFunctions(e)
  {
    match e
    case ERC20Pausable | ERC721Pausable | ERC1155Pausable => PauseFunctions
    case ERC721Enumerable => EnumerableFunctions
    case ERC721Wrapper => WrapperFunctions
    case ERC1155URIStorage => UriFunctions
    case _ => ""
  }

  /**
   * Import lines, inheritance token, initializer and functions of one extension.
   * Every extension has an import and an inheritance token and no initializer.
   */
  function ExtensionComponents(e: TokenExtension): (r: Components)
    ensures WellFormed(r)
    ensures |r.functions| > 0 <==> HasFunctions(e)
  {
    Components(ExtensionImports(e), ExtensionInherit(e), "", ExtensionFunctions(e))
  }

  // ---------------------------------------------------------------------
  // Composition of a base with extensions

  datatype Part = ImportPart | InheritPart | InitPart | FunctionPart

  function Pick(c: Components, p: Part): string
  {
    match p
    case ImportPart => c.importLines
    case InheritPart => c.inherit
    case InitPart => c.init
    case FunctionPart => c.functions
  }

  /** What every extension contributes: an import and an inheritance token, and no initializer. */
  predicate WellFormed(c: Components)
  {
    |c.importLines| > 0 && |c.inherit| > 0 && |c.init| == 0
  }

  /** The components of each extension after conversion to the base's standard, in list order. */
  function ConvertedComponents(base: ContractType, exts: seq<TokenExtension>): (r: seq<Components>)
    ensures |r| == |exts|
    ensures forall i :: 0 <= i < |r| ==> WellFormed(r[i])
    decreases |exts|
  {
    if |exts| == 0 then []
    else ConvertedComponents(base, exts[..|exts| - 1]) + [ExtensionComponents(ConvertExtension(base, exts[|exts| - 1]))]
  }

  /** Entry `i` belongs to extension `i`. */
  lemma {:induction false} ConvertedComponentsAt(base: ContractType, exts: seq<TokenExtension>, i: nat)
    requires i < |exts|
    ensures ConvertedComponents(base, exts)[i] == ExtensionComponents(ConvertExtension(base, exts[i]))
    decreases |exts|
  {
    if i < |exts| - 1 {
      var init := exts[..|exts| - 1];
      ConvertedComponentsAt(base, init, i);
      assert init[i] == exts[i];
    }
  }

  lemma ConvertedComponentsStep(base: ContractType, exts: seq<TokenExtension>, i: nat)
    requires i < |exts|
    ensures ConvertedComponents(base, exts[..i + 1])
      == ConvertedComponents(base, exts[..i]) + [ExtensionComponents(ConvertExtension(base, exts[i]))]
  {
    assert exts[..i + 1][..i] == exts[..i];
  }

  /** The `p` part of each component, in order. */
  function PartsOf(cs: seq<Components>, p: Part): (r: seq<string>)
    ensures |r| == |cs|
  {
    seq(|cs|, i requires 0 <= i < |cs| => Pick(cs[i], p))
  }

  /** The entries of `xs` that are not empty, in order. */
  function NonEmpty(xs: seq<string>): seq<string>
  {
    if |xs| == 0 then []
    else NonEmpty(xs[..|xs| - 1]) + (if |xs[|xs| - 1]| > 0 then [xs[|xs| - 1]] else [])
  }

  /** Filtering never adds entries and keeps only non-empty ones. */
  lemma {:induction false} NonEmptyBounded(xs: seq<string>)
    ensures var r := NonEmpty(xs);
      |r| <= |xs| && forall i :: 0 <= i < |r| ==> |r[i]| > 0
    decreases |xs|
  {
    if |xs| > 0 {
      NonEmptyBounded(xs[..|xs| - 1]);
    }
  }

  /** A list without empty entries is kept whole. */
  lemma {:induction false} NonEmptyKeepsAll(xs: seq<string>)
    requires forall i :: 0 <= i < |xs| ==> |xs[i]| > 0
    ensures NonEmpty(xs) == xs
    decreases |xs|
  {
    if |xs| > 0 {
      var init := xs[..|xs| - 1];
      NonEmptyKeepsAll(init);
      assert init + [xs[|xs| - 1]] == xs;
    }
  }

  /** A list of empty entries is dropped entirely. */
  lemma {:induction false} NonEmptyDropsAll(xs: seq<string>)
    requires forall i :: 0 <= i < |xs| ==> |xs[i]| == 0
    ensures NonEmpty(xs) == []
    decreases |xs|
  {
    if |xs| > 0 {
      NonEmptyDropsAll(xs[..|xs| - 1]);
    }
  }

  /** Adding one component adds its `p` part, when not empty, at the end. */
  lemma ContributionsAppend(cs: seq<Components>, c: Components, p: Part)
    ensures NonEmpty(PartsOf(cs + [c], p))
      == NonEmpty(PartsOf(cs, p)) + (if |Pick(c, p)| > 0 then [Pick(c, p)] else [])
  {
    var xs := PartsOf(cs + [c], p);
    assert xs[..|cs|] == PartsOf(cs, p);
  }

  const OwnableImport := ("import " + "\"@openzeppel" + "in/contracts" + "/access/Owna" + "ble.sol\";")

  function BaseImports(base: ContractType): seq<string>
  {
    match base
    case ERC20 => [("import " + "\"@openzeppel" + "in/contracts" + "/token/ERC20" + "/ERC20.sol\";")]
    case ERC721 => [("import " + "\"@openzeppel" + "in/contracts" + "/token/ERC72" + "1/ERC721.sol" + "\";")]
    case ERC1155 => [("import " + "\"@openzeppel" + "in/contracts" + "/token/ERC11" + "55/ERC1155.s" + "ol\";")]
    case _ => []
  }

  function BaseInheritance(base: ContractType): seq<string>
  {
    match base
    case ERC20 => ["ERC20"]
    case ERC721 => ["ERC721"]
    case ERC1155 => ["ERC1155"]
    case _ => []
  }

  /** The four joined strings the composer hands to the contract text. */
  datatype Composed = Composed(imports: string, inheritance: string, initializers: string, functions: string)

  /** The base's import, then Ownable's, then each extension's non-empty import lines. */
  function ImportList(base: ContractType, cs: seq<Components>): seq<string>
  {
    BaseImports(base) + [OwnableImport] + NonEmpty(PartsOf(cs, ImportPart))
  }

  /** The base, then Ownable, then each extension's non-empty inheritance token. */
  function InheritanceList(base: ContractType, cs: seq<Components>): seq<string>
  {
    BaseInheritance(base) + ["Ownable"] + NonEmpty(PartsOf(cs, InheritPart))
  }

  /** The four lists joined as the contract text needs them. */
  function Compose(base: ContractType, cs: seq<Components>): Composed
  {
    Composed(
      Join(ImportList(base, cs), "\n"),
      Join(InheritanceList(base, cs), ", "),
      Join(NonEmpty(PartsOf(cs, InitPart)), "\n        "),
      Join(NonEmpty(PartsOf(cs, FunctionPart)), "\n\n"))
  }

  function InheritanceComponents(base: ContractType, exts: seq<TokenExtension>): Composed
  {
    Compose(base, ConvertedComponents(base, exts))
  }

  /** Adding one extension's components extends each list by its non-empty part. */
  lemma ListsAppend(base: ContractType, cs: seq<Components>, c: Components)
    ensures ImportList(base, cs + [c]) == ImportList(base, cs) + (if |c.importLines| > 0 then [c.importLines] else [])
    ensures InheritanceList(base, cs + [c]) == InheritanceList(base, cs) + (if |c.inherit| > 0 then [c.inherit] else [])
    ensures NonEmpty(PartsOf(cs + [c], InitPart)) == NonEmpty(PartsOf(cs, InitPart)) + (if |c.init| > 0 then [c.init] else [])
    ensures NonEmpty(PartsOf(cs + [c], FunctionPart)) == NonEmpty(PartsOf(cs, FunctionPart)) + (if |c.functions| > 0 then [c.functions] else [])
  {
    ContributionsAppend(cs, c, ImportPart);
    ContributionsAppend(cs, c, InheritPart);
    ContributionsAppend(cs, c, InitPart);
    ContributionsAppend(cs, c, FunctionPart);
  }

  /** Appends `x` to `xs` unless it is empty. */
  method PushIfNonEmpty(xs: seq<string>, x: string) returns (ys: seq<string>)
    ensures ys == xs + (if |x| > 0 then [x] else [])
  {
    ys := xs;
    if |x| > 0 {
      ys := ys + [x];
    }
  }

  /**
   * Collects imports, inheritance tokens, initializers and functions: the
   * base's own entries, then Ownable, then one entry per extension after
   * conversion to the base's standard, skipping empty parts.
   */
  method BuildInheritanceComponents(base: ContractType, extensions: seq<TokenExtension>) returns (r: Composed)
    ensures r == InheritanceComponents(base, extensions)
  {
    var imports := BaseImports(base);
    var inheritance := BaseInheritance(base);
    var initializers: seq<string> := [];
    var functions: seq<string> := [];
    imports := imports + [OwnableImport];
    inheritance := inheritance + ["Ownable"];
    ghost var done: seq<Components> := [];
    for i := 0 to |extensions|
      invariant done == ConvertedComponents(base, extensions[..i])
      invariant imports == ImportList(base, done)
      invariant inheritance == InheritanceList(base, done)
      invariant initializers == NonEmpty(PartsOf(done, InitPart))
      invariant functions == NonEmpty(PartsOf(done, FunctionPart))
    {
      var converted := ConvertExtension(base, extensions[i]);
      var c := ExtensionComponents(converted);
      ConvertedComponentsStep(base, extensions, i);
      ListsAppend(base, done, c);
      imports := PushIfNonEmpty(imports, c.importLines);
      inheritance := PushIfNonEmpty(inheritance, c.inherit);
      initializers := PushIfNonEmpty(initializers, c.init);
      functions := PushIfNonEmpty(functions, c.functions);
      done := done + [c];
    }
    assert extensions[..|extensions|] == extensions;
    r := Composed(Join(imports, "\n"), Join(inheritance, ", "), Join(initializers, "\n        "), Join(functions, "\n\n"));
  }

  /** Import lines and inheritance tokens of well-formed components are all kept. */
  lemma AllKept(cs: seq<Components>, p: Part)
    requires p == ImportPart || p == InheritPart
    requires forall i :: 0 <= i < |cs| ==> WellFormed(cs[i])
    ensures NonEmpty(PartsOf(cs, p)) == PartsOf(cs, p)
  {
    var xs := PartsOf(cs, p);
    forall i | 0 <= i < |xs|
      ensures |xs[i]| > 0
    {
      assert xs[i] == Pick(cs[i], p);
    }
    NonEmptyKeepsAll(xs);
  }

  /** When every component's `p` part is empty, nothing is kept. */
  lemma NoneKept(cs: seq<Components>, p: Part)
    requires forall i :: 0 <= i < |cs| ==> |Pick(cs[i], p)| == 0
    ensures NonEmpty(PartsOf(cs, p)) == []
  {
    var xs := PartsOf(cs, p);
    forall i | 0 <= i < |xs|
      ensures |xs[i]| == 0
    {
      assert xs[i] == Pick(cs[i], p);
    }
    NonEmptyDropsAll(xs);
  }

  /**
   * The inheritance list is the base, then Ownable, then one token per
   * extension in order; the import list likewise has one line per extension
   * after the base's and Ownable's.
   */
  lemma InheritanceOrder(base: ContractType, cs: seq<Components>)
    requires forall i :: 0 <= i < |cs| ==> WellFormed(cs[i])
    ensures var l := InheritanceList(base, cs);
      var k := |BaseInheritance(base)|;
      |l| == k + 1 + |cs| && l[k] == "Ownable"
      && forall i :: 0 <= i < |cs| ==> l[k + 1 + i] == cs[i].inherit
  {
    InheritanceListKept(base, cs);
    AfterOwnable(BaseInheritance(base), PartsOf(cs, InheritPart), cs);
  }

  lemma InheritanceListKept(base: ContractType, cs: seq<Components>)
    requires forall i :: 0 <= i < |cs| ==> WellFormed(cs[i])
    ensures InheritanceList(base, cs) == BaseInheritance(base) + ["Ownable"] + PartsOf(cs, InheritPart)
  {
    AllKept(cs, InheritPart);
  }

  lemma AfterOwnable(b: seq<string>, xs: seq<string>, cs: seq<Components>)
    requires xs == PartsOf(cs, InheritPart)
    ensures var l := b + ["Ownable"] + xs;
      |l| == |b| + 1 + |cs| && l[|b|] == "Ownable"
      && forall i :: 0 <= i < |cs| ==> l[|b| + 1 + i] == cs[i].inherit
  {
  }

  /** The import list has one line per extension after the base's and Ownable's. */
  lemma ImportCount(base: ContractType, cs: seq<Components>)
    requires forall i :: 0 <= i < |cs| ==> WellFormed(cs[i])
    ensures |ImportList(base, cs)| == |BaseImports(base)| + 1 + |cs|
  {
    AllKept(cs, ImportPart);
  }

  /** Entry `i` after Ownable is the token of extension `i`, converted to the base's standard. */
  lemma InheritanceTokenAt(base: ContractType, exts: seq<TokenExtension>, i: nat)
    requires i < |exts|
    ensures var l := InheritanceList(base, ConvertedComponents(base, exts));
      var k := |BaseInheritance(base)|;
      k + 1 + i < |l| && l[k + 1 + i] == ExtensionInherit(ConvertExtension(base, exts[i]))
  {
    InheritanceOrder(base, ConvertedComponents(base, exts));
    ConvertedComponentsAt(base, exts, i);
  }

  /** No extension has an initializer, so the initializer string is always empty. */
  lemma NoInitializers(base: ContractType, exts: seq<TokenExtension>)
    ensures InheritanceComponents(base, exts).initializers == ""
  {
    var cs := ConvertedComponents(base, exts);
    forall i | 0 <= i < |cs|
      ensures |Pick(cs[i], InitPart)| == 0
    {
      assert WellFormed(cs[i]);
    }
    NoneKept(cs, InitPart);
  }

  /** The function blocks of the composed contract are non-empty and at most one per extension. */
  lemma FunctionBlocksBounded(base: ContractType, exts: seq<TokenExtension>)
    ensures var f := NonEmpty(PartsOf(ConvertedComponents(base, exts), FunctionPart));
      |f| <= |exts| && forall i :: 0 <= i < |f| ==> |f[i]| > 0
  {
    NonEmptyBounded(PartsOf(ConvertedComponents(base, exts), FunctionPart));
  }

  /** When no converted extension brings functions, the composed contract has none. */
  lemma NoFunctionsWithoutBodies(base: ContractType, exts: seq<TokenExtension>)
    requires forall i :: 0 <= i < |exts| ==> !HasFunctions(ConvertExtension(base, exts[i]))
    ensures InheritanceComponents(base, exts).functions == ""
  {
    var cs := ConvertedComponents(base, exts);
    forall i | 0 <= i < |cs|
      ensures |Pick(cs[i], FunctionPart)| == 0
    {
      NoFunctionsAt(base, exts, i);
    }
    NoneKept(cs, FunctionPart);
  }

  lemma NoFunctionsAt(base: ContractType, exts: seq<TokenExtension>, i: nat)
    requires i < |exts| && !HasFunctions(ConvertExtension(base, exts[i]))
    ensures |ConvertedComponents(base, exts)[i].functions| == 0
  {
    ConvertedComponentsAt(base, exts, i);
  }

  // ---------------------------------------------------------------------
  // State variables

  const TokenIdCounter := ("    " + "uint256 " + "private " + "_tokenIdCoun" + "ter;")

  predicate NeedsTokenCounter(e: TokenExtension)
  {
    e == ERC721Enumerable || e == ERC721Burnable
  }

  /** The counter declaration, once, when the (unconverted) list asks for it. */
  function StateVariables(exts: seq<TokenExtension>): string
  {
    if exists i :: 0 <= i < |exts| && NeedsTokenCounter(exts[i]) then TokenIdCounter else ""
  }

  /** Adds the token-id counter at most once, however many extensions need it. */
  method GenerateStateVariables(extensions: seq<TokenExtension>) returns (r: string)
    ensures r == StateVariables(extensions)
  {
    var stateVars: seq<string> := [];
    for i := 0 to |extensions|
      invariant stateVars == if exists j :: 0 <= j < i && NeedsTokenCounter(extensions[j]) then [TokenIdCounter] else []
    {
      if NeedsTokenCounter(extensions[i]) {
        if TokenIdCounter !in stateVars {
          stateVars := stateVars + [TokenIdCounter];
        }
      }
    }
    r := Join(stateVars, "\n");
  }

  /** The counter is decided on the extensions as requested, before conversion. */
  lemma CounterIgnoresConversion()
    ensures ConvertExtension(ERC721, ERC20Burnable) == ERC721Burnable
    ensures StateVariables([ERC20Burnable]) == ""
    ensures StateVariables([ERC721Burnable, ERC721Enumerable]) == TokenIdCounter
  {
    assert NeedsTokenCounter([ERC721Burnable, ERC721Enumerable][0]);
  }

  // ---------------------------------------------------------------------
  // The multi-inheritance contract

  const InitialSupplyParam := ("uint256 " + "initialSuppl" + "y")

  predicate IsFungibleBase(base: ContractType)
  {
    base == ERC20 || base == ERC20Upgradeable
  }

  /** The constructor takes an initial supply exactly for fungible bases. */
  function ConstructorParams(base: ContractType): (r: string)
    ensures r != "" <==> IsFungibleBase(base)
  {
    match base
    case ERC20 | ERC20Upgradeable => InitialSupplyParam
    case _ => ""
  }

  predicate HasWrapper(exts: seq<TokenExtension>)
  {
    exists i :: 0 <= i < |exts| && (exts[i] == ERC721Wrapper || exts[i] == ERC20Wrapper)
  }

  const WrapperCall := (" ERC721Wrapp" + "er(IERC721(U" + "NDERLYING_TO" + "KEN))")
  const MultiTokenCall := ("ERC1155(\"htt" + "ps://api.exa" + "mple.com/tok" + "ens/{id}.jso" + "n\")")

  /**
   * The base constructor call: plain bases pass name and symbol (ERC1155 its
   * URI); a non-fungible base with a wrapper also initialises the wrapper;
   * any other base calls nothing.
   */
  function ConstructorCall(name: string, base: ContractType, exts: seq<TokenExtension>): (r: string)
    ensures r == "" <==> !IsPlainBase(base)
    ensures base == ERC20 ==> r == "ERC20(\"" + name + "\", \"" + GetSymbol(name) + "\")"
    ensures base == ERC721 ==> "ERC721(\"" + name + "\", \"" + GetSymbol(name) + "\")" <= r
    ensures base == ERC721 ==> (IsSuffix(WrapperCall, r) <==> HasWrapper(exts))
    ensures base == ERC1155 ==> r == MultiTokenCall
  {
    match base
    case ERC20 => "ERC20(\"" + name + "\", \"" + GetSymbol(name) + "\")"
    case ERC721 =>
      var baseCall := "ERC721(\"" + name + "\", \"" + GetSymbol(name) + "\")";
      assert !IsSuffix(WrapperCall, baseCall) by {
        assert baseCall[|baseCall| - 2] == '"';
        assert WrapperCall[|WrapperCall| - 2] == ')';
      }
      if HasWrapper(exts) then baseCall + WrapperCall else baseCall
    case ERC1155 => MultiTokenCall
    case _ => ""
  }

  const MintInitialSupply := ("        " + "_mint(msg.se" + "nder, " + "initialSuppl" + "y);")

  /** Only a plain fungible base mints in its constructor. */
  function ConstructorBody(base: ContractType): (r: string)
    ensures r != "" <==> base == ERC20
  {
    if base == ERC20 then MintInitialSupply else ""
  }

  /** The constructor's signature and modifiers, always ending with the Ownable initialisation. */
  function ConstructorClause(params: string, call: string): (r: string)
    ensures "constructor(" + params + ") " <= r
    ensures IsSuffix((" Ownable(msg" + ".sender)"), r)
  {
    var r := "constructor(" + params + ") " + call + (" Ownable(msg" + ".sender)");
    assert r == ("constructor(" + params + ") ") + (call + (" Ownable(msg" + ".sender)"));
    r
  }

  const MultiPieces: seq<string> := [SpdxPrefix, PragmaPrefix, ";" + "\n\n"] + [
    "\n\ncontract ",
    " is ",
    " {\n",
    "\n\n    ",
    " {\n",
    "\n    }\n\n",
    "\n}"
  ]

  lemma MultiPiecesShaped()
    ensures HeaderShaped(MultiPieces, 7)
  {
  }

  /**
   * `generate_multi_inheritance_contract`: the composed contract carries its
   * name, its imports, its inheritance list, its constructor clause and its
   * extension functions.
   */
  function GenerateMultiInheritanceContract(t: SolidityTemplate, base: ContractType, exts: seq<TokenExtension>): (r: string)
    ensures Header(t.license, t.pragma) <= r
    ensures Contains(r, t.contractName)
    ensures var c := InheritanceComponents(base, exts);
      Contains(r, c.imports) && Contains(r, c.inheritance) && Contains(r, c.functions)
      && Contains(r, ConstructorClause(ConstructorParams(base), ConstructorCall(t.contractName, base, exts)))
  {
    var c := InheritanceComponents(base, exts);
    var rest := [c.imports, t.contractName, c.inheritance, StateVariables(exts),
       ConstructorClause(ConstructorParams(base), ConstructorCall(t.contractName, base, exts)),
       ConstructorBody(base), c.functions];
    MultiPiecesShaped();
    RenderContains(MultiPieces, t.license, t.pragma, rest, 0);
    RenderContains(MultiPieces, t.license, t.pragma, rest, 1);
    RenderContains(MultiPieces, t.license, t.pragma, rest, 2);
    RenderContains(MultiPieces, t.license, t.pragma, rest, 4);
    RenderContains(MultiPieces, t.license, t.pragma, rest, 6);
    Render(MultiPieces, t.license, t.pragma, rest)
  }

  // ---------------------------------------------------------------------
  // Single-standard contracts, test and script

  /** The single-standard types whose contract passes a name and a symbol to its base. */
  predicate HasSymbol(t: ContractType)
  {
    t == ERC20 || t == ERC721 || t == ERC20Upgradeable || t == ERC721Upgradeable
  }

  /** The holes after the header: the name (twice) and the symbol for the token types, the name alone otherwise. */
  function TemplateArgs(name: string, t: ContractType): (r: seq<string>)
    ensures |r| == if HasSymbol(t) then 3 else 1
    ensures r[0] == name
    ensures HasSymbol(t) ==> r[2] == GetSymbol(name)
  {
    if HasSymbol(t) then [name, name, GetSymbol(name)] else [name]
  }

  /** The template of each single-standard contract type. */
  function ContractPieces(t: ContractType): (r: seq<string>)
    requires Renderable(t) && !t.MultiInheritance?
    ensures HeaderShaped(r, if HasSymbol(t) then 3 else 1)
  {
    match t
    case Basic => PlainPiecesShaped(); BasicPieces
    case ERC20 => PlainPiecesShaped(); FungiblePieces
    case ERC721 => PlainPiecesShaped(); NonFungiblePieces
    case ERC1155 => PlainPiecesShaped(); MultiTokenPieces
    case ERC20Upgradeable => FungibleUpgradeableShaped(); FungibleUpgradeablePieces
    case ERC721Upgradeable => NonFungibleUpgradeableShaped(); NonFungibleUpgradeablePieces
    case ERC1155Upgradeable => MultiTokenUpgradeableShaped(); MultiTokenUpgradeablePieces
  }

  const BasicPieces: seq<string> := [SpdxPrefix, PragmaPrefix, ";" + "\n\ncontract "] + [
    (" {\n" +
        "    " + "constructor(" + ") " + "{}\n" +
        "}")
  ]
  const FungiblePieces: seq<string> := [SpdxPrefix, PragmaPrefix, ";" + ("\n" +
      "\n" +
      "import " + "\"@openzeppel" + "in/contracts" + "/token/ERC20" + "/ERC20.sol\";" + "\n" +
      "\n" +
      "contract ")] + [
    (" is " + "ERC20 " + "{\n" +
        "    " + "constructor(" + "uint256 " + "initialSuppl" + "y) " + "ERC20(\""),
    "\", \"",
    ("\") " + "{\n" +
        "        " + "_mint(msg.se" + "nder, " + "initialSuppl" + "y);\n" +
        "    " + "}\n" +
        "}")
  ]
  const NonFungiblePieces: seq<string> := [SpdxPrefix, PragmaPrefix, ";" + ("\n" +
      "\n" +
      "import " + "\"@openzeppel" + "in/contracts" + "/token/ERC72" + "1/ERC721.sol" + "\";\n" +
      "import " + "\"@openzeppel" + "in/contracts" + "/access/Owna" + "ble.sol\";\n" +
      "\n" +
      "contract ")] + [
    (" is " + "ERC721, " + "Ownable " + "{\n" +
        "    " + "uint256 " + "private " + "_tokenIdCoun" + "ter;\n" +
        "\n" +
        "    " + "constructor(" + ") " + "ERC721(\""),
    "\", \"",
    ("\") " + "Ownable(msg." + "sender) " + "{}\n" +
        "\n" +
        "    " + "function " + "mint(address" + " to) " + "public " + "onlyOwner " + "{\n" +
        "        " + "uint256 " + "tokenId " + "= " + "_tokenIdCoun" + "ter++;\n" +
        "        " + "_safeMint(to" + ", " + "tokenId);\n" +
        "    " + "}\n" +
        "}")
  ]
  const FungibleUpgradeablePieces: seq<string> := [SpdxPrefix, PragmaPrefix, ";" + ("\n" +
      "\n" +
      "import " + "\"@openzeppel" + "in/contracts" + "-upgradeable" + "/token/ERC20" + "/ERC20Upgrad" + "eable.sol\";\n" +
      "import " + "\"@openzeppel" + "in/contracts" + "-upgradeable" + "/proxy/utils" + "/Initializab" + "le.sol\";\n" +
      "import " + "\"@openzeppel" + "in/contracts" + "-upgradeable" + "/access/Owna" + "bleUpgradeab" + "le.sol\";\n" +
      "import " + "\"@openzeppel" + "in/contracts" + "-upgradeable" + "/proxy/utils" + "/UUPSUpgrade" + "able.sol\";\n" +
      "\n" +
      "contract ")] + [
    (" is " + "Initializabl" + "e, " + "ERC20Upgrade" + "able, " + "OwnableUpgra" + "deable, " + "UUPSUpgradea" +
        "ble " + "{\n" +
        "    " + "/// " + "@custom:oz-u" + "pgrades-unsa" + "fe-allow " + "constructor\n" +
        "    " + "constructor(" + ") " + "{\n" +
        "        " + "_disableInit" + "ializers();\n" +
        "    " + "}\n" +
        "\n" +
        "    " + "function " + "initialize(u" + "int256 " + "initialSuppl" + "y) " + "public " + "initializer " +
        "{\n" +
        "        " + "__ERC20_init" + "(\""),
    "\", \"",
    ("\");\n" +
        "        " + "__Ownable_in" + "it(msg.sende" + "r);\n" +
        "        " + "__UUPSUpgrad" + "eable_init()" + ";\n" +
        "        " + "\n" +
        "        " + "_mint(msg.se" + "nder, " + "initialSuppl" + "y);\n" +
        "    " + "}\n" +
        "\n" +
        "    " + "function " + "_authorizeUp" + "grade(addres" + "s " + "newImplement" + "ation) " + "internal " +
        "override " + "onlyOwner " + "{}\n" +
        "}")
  ]
  const NonFungibleUpgradeablePieces: seq<string> := [SpdxPrefix, PragmaPrefix, ";" + ("\n" +
      "\n" +
      "import " + "\"@openzeppel" + "in/contracts" + "-upgradeable" + "/token/ERC72" + "1/ERC721Upgr" + "adeable.sol\"" + ";\n" +
      "import " + "\"@openzeppel" + "in/contracts" + "-upgradeable" + "/proxy/utils" + "/Initializab" + "le.sol\";\n" +
      "import " + "\"@openzeppel" + "in/contracts" + "-upgradeable" + "/access/Owna" + "bleUpgradeab" + "le.sol\";\n" +
      "import " + "\"@openzeppel" + "in/contracts" + "-upgradeable" + "/proxy/utils" + "/UUPSUpgrade" + "able.sol\";\n" +
      "\n" +
      "contract ")] + [
    (" is " + "Initializabl" + "e, " + "ERC721Upgrad" + "eable, " + "OwnableUpgra" + "deable, " + "UUPSUpgradea" +
        "ble " + "{\n" +
        "    " + "uint256 " + "private " + "_tokenIdCoun" + "ter;\n" +
        "\n" +
        "    " + "/// " + "@custom:oz-u" + "pgrades-unsa" + "fe-allow " + "constructor\n" +
        "    " + "constructor(" + ") " + "{\n" +
        "        " + "_disableInit" + "ializers();\n" +
        "    " + "}\n" +
        "\n" +
        "    " + "function " + "initialize()" + " public " + "initializer " + "{\n" +
        "        " + "__ERC721_ini" + "t(\""),
    "\", \"",
    ("\");\n" +
        "        " + "__Ownable_in" + "it(msg.sende" + "r);\n" +
        "        " + "__UUPSUpgrad" + "eable_init()" + ";\n" +
        "    " + "}\n" +
        "\n" +
        "    " + "function " + "mint(address" + " to) " + "public " + "onlyOwner " + "{\n" +
        "        " + "uint256 " + "tokenId " + "= " + "_tokenIdCoun" + "ter++;\n" +
        "        " + "_safeMint(to" + ", " + "tokenId);\n" +
        "    " + "}\n" +
        "\n" +
        "    " + "function " + "_authorizeUp" + "grade(addres" + "s " + "newImplement" + "ation) " + "internal " +
        "override " + "onlyOwner " + "{}\n" +
        "}")
  ]
  const MultiTokenPieces: seq<string> := [SpdxPrefix, PragmaPrefix, ";" + ("\n" +
      "\n" +
      "import " + "\"@openzeppel" + "in/contracts" + "/token/ERC11" + "55/ERC1155.s" + "ol\";\n" +
      "import " + "\"@openzeppel" + "in/contracts" + "/access/Owna" + "ble.sol\";\n" +
      "\n" +
      "contract ")] + [
    (" is " + "ERC1155, " + "Ownable " + "{\n" +
        "    " + "constructor(" + ") " + "ERC1155(\"htt" + "ps://api.exa" + "mple.com/tok" + "ens/{id}.jso" + "n\") " +
        "Ownable(msg." + "sender) " + "{}\n" +
        "\n" +
        "    " + "function " + "mint(address" + " to, " + "uint256 " + "id, " + "uint256 " + "amount, " +
        "bytes " + "memory " + "data) " + "public " + "onlyOwner " + "{\n" +
        "        " + "_mint(to, " + "id, " + "amount, " + "data);\n" +
        "    " + "}\n" +
        "\n" +
        "    " + "function " + "mintBatch(ad" + "dress " + "to, " + "uint256[] " + "memory " + "ids, " +
        "uint256[] " + "memory " + "amounts, " + "bytes " + "memory " + "data) " + "public " + "onlyOwner " +
        "{\n" +
        "        " + "_mintBatch(t" + "o, " + "ids, " + "amounts, " + "data);\n" +
        "    " + "}\n" +
        "}")
  ]
  const MultiTokenUpgradeablePieces: seq<string> := [SpdxPrefix, PragmaPrefix, ";" + ("\n" +
      "\n" +
      "import " + "\"@openzeppel" + "in/contracts" + "-upgradeable" + "/token/ERC11" + "55/ERC1155Up" + "gradeable.so" + "l\";\n" +
      "import " + "\"@openzeppel" + "in/contracts" + "-upgradeable" + "/proxy/utils" + "/Initializab" + "le.sol\";\n" +
      "import " + "\"@openzeppel" + "in/contracts" + "-upgradeable" + "/access/Owna" + "bleUpgradeab" + "le.sol\";\n" +
      "import " + "\"@openzeppel" + "in/contracts" + "-upgradeable" + "/proxy/utils" + "/UUPSUpgrade" + "able.sol\";\n" +
      "\n" +
      "contract ")] + [
    (" is " + "Initializabl" + "e, " + "ERC1155Upgra" + "deable, " + "OwnableUpgra" + "deable, " + "UUPSUpgradea" +
        "ble " + "{\n" +
        "    " + "/// " + "@custom:oz-u" + "pgrades-unsa" + "fe-allow " + "constructor\n" +
        "    " + "constructor(" + ") " + "{\n" +
        "        " + "_disableInit" + "ializers();\n" +
        "    " + "}\n" +
        "\n" +
        "    " + "function " + "initialize()" + " public " + "initializer " + "{\n" +
        "        " + "__ERC1155_in" + "it(\"https://" + "api.example." + "com/tokens/{" + "id}.json\");\n" +
        "        " + "__Ownable_in" + "it(msg.sende" + "r);\n" +
        "        " + "__UUPSUpgrad" + "eable_init()" + ";\n" +
        "    " + "}\n" +
        "\n" +
        "    " + "function " + "mint(address" + " to, " + "uint256 " + "id, " + "uint256 " + "amount, " +
        "bytes " + "memory " + "data) " + "public " + "onlyOwner " + "{\n" +
        "        " + "_mint(to, " + "id, " + "amount, " + "data);\n" +
        "    " + "}\n" +
        "\n" +
        "    " + "function " + "mintBatch(ad" + "dress " + "to, " + "uint256[] " + "memory " + "ids, " +
        "uint256[] " + "memory " + "amounts, " + "bytes " + "memory " + "data) " + "public " + "onlyOwner " +
        "{\n" +
        "        " + "_mintBatch(t" + "o, " + "ids, " + "amounts, " + "data);\n" +
        "    " + "}\n" +
        "\n" +
        "    " + "function " + "_authorizeUp" + "grade(addres" + "s " + "newImplement" + "ation) " + "internal " +
        "override " + "onlyOwner " + "{}\n" +
        "}")
  ]

  lemma PlainPiecesShaped()
    ensures HeaderShaped(BasicPieces, 1) && HeaderShaped(MultiTokenPieces, 1)
    ensures HeaderShaped(FungiblePieces, 3) && HeaderShaped(NonFungiblePieces, 3)
  {
  }

  lemma FungibleUpgradeableShaped()
    ensures HeaderShaped(FungibleUpgradeablePieces, 3)
  {
  }

  lemma NonFungibleUpgradeableShaped()
    ensures HeaderShaped(NonFungibleUpgradeablePieces, 3)
  {
  }

  lemma MultiTokenUpgradeableShaped()
    ensures HeaderShaped(MultiTokenUpgradeablePieces, 1)
  {
  }

  /** The contract text for the template's type. */
  function GenerateContract(t: SolidityTemplate): (r: string)
    requires Renderable(t.contractType)
    ensures Header(t.license, t.pragma) <= r
  {
    if t.contractType.MultiInheritance? then
      GenerateMultiInheritanceContract(t, t.contractType.baseType, t.contractType.extensions)
    else
      Render(ContractPieces(t.contractType), t.license, t.pragma, TemplateArgs(t.contractName, t.contractType))
  }

  /** Every generated contract names the contract. */
  lemma ContractNamesItself(t: SolidityTemplate)
    requires Renderable(t.contractType)
    ensures Contains(GenerateContract(t), t.contractName)
  {
    if !t.contractType.MultiInheritance? {
      var pieces, args := ContractPieces(t.contractType), TemplateArgs(t.contractName, t.contractType);
      assert GenerateContract(t) == Render(pieces, t.license, t.pragma, args);
      RenderContains(pieces, t.license, t.pragma, args, 0);
    }
  }

  /** The fungible and non-fungible contracts carry the derived symbol. */
  lemma TokenContractsCarrySymbol(t: SolidityTemplate)
    requires HasSymbol(t.contractType)
    ensures Contains(GenerateContract(t), GetSymbol(t.contractName))
  {
    RenderContains(ContractPieces(t.contractType), t.license, t.pragma, TemplateArgs(t.contractName, t.contractType), 2);
  }

  const InitialSupplyArgs := ("(1000000 " + "* " + "10 " + "** " + "18)")

  /**
   * The arguments the test and the script pass to the constructor: an initial
   * supply for a fungible type (directly or as a composed contract's base),
   * none otherwise.
   */
  function ConstructorArgs(t: ContractType): (r: string)
    ensures r == InitialSupplyArgs <==> IsFungibleBase(t) || (t.MultiInheritance? && IsFungibleBase(t.baseType))
    ensures r != InitialSupplyArgs ==> r == "()"
  {
    match t
    case ERC20 | ERC20Upgradeable => InitialSupplyArgs
    case MultiInheritance(base, _) =>
      (match base
       case ERC20 | ERC20Upgradeable => InitialSupplyArgs
       case _ => "()")
    case _ => "()"
  }

  const TestPieces: seq<string> := [SpdxPrefix, PragmaPrefix, ";" + ("\n" +
      "\n" +
      "import " + "\"forge-std/T" + "est.sol\";\n" +
      "import " + "\"../src/")] + [
    (".sol\";\n" +
        "\n" +
        "contract "),
    ("Test " + "is " + "Test " + "{\n" +
        "    "),
    (" public " + "instance;\n" +
        "\n" +
        "    " + "function " + "setUp() " + "public " + "{\n" +
        "        " + "instance " + "= " + "new "),
    "",
    (";\n" +
        "    " + "}\n" +
        "\n" +
        "    " + "function " + "test_Deploym" + "ent() " + "public " + "view " + "{\n" +
        "        " + "assertNotEq(" + "address(inst" + "ance), " + "address(0));" + "\n" +
        "    " + "}\n" +
        "}")
  ]
  const ScriptPieces: seq<string> := [SpdxPrefix, PragmaPrefix, ";" + ("\n" +
      "\n" +
      "import " + "\"forge-std/S" + "cript.sol\";\n" +
      "import " + "\"../src/")] + [
    (".sol\";\n" +
        "\n" +
        "contract " + "Deploy"),
    (" is " + "Script " + "{\n" +
        "    " + "function " + "run() " + "external " + "returns " + "("),
    (") " + "{\n" +
        "        " + "uint256 " + "deployerPriv" + "ateKey " + "= " + "vm.envUint(\"" + "PRIVATE_KEY\"" + ");\n" +
        "        " + "\n" +
        "        " + "vm.startBroa" + "dcast(deploy" + "erPrivateKey" + ");\n" +
        "        " + "\n" +
        "        "),
    (" instance " + "= " + "new "),
    "",
    (";\n" +
        "        " + "\n" +
        "        " + "vm.stopBroad" + "cast();\n" +
        "        " + "\n" +
        "        " + "return " + "instance;\n" +
        "    " + "}\n" +
        "}")
  ]

  /** The Foundry test: deploys the contract with `ConstructorArgs` and checks its address. */
  function GenerateTest(t: SolidityTemplate): (r: string)
    ensures Header(t.license, t.pragma) <= r
  {
    var name := t.contractName;
    Render(TestPieces, t.license, t.pragma, [name, name, name, name, ConstructorArgs(t.contractType)])
  }

  /** The deployment script: broadcasts one deployment with `ConstructorArgs`. */
  function GenerateScript(t: SolidityTemplate): (r: string)
    ensures Header(t.license, t.pragma) <= r
  {
    var name := t.contractName;
    Render(ScriptPieces, t.license, t.pragma, [name, name, name, name, name, ConstructorArgs(t.contractType)])
  }

  lemma TestAndScriptPiecesShaped()
    ensures HeaderShaped(TestPieces, 5) && HeaderShaped(ScriptPieces, 6)
  {
  }

  /** Test and script both deploy the contract as `new <name><constructor arguments>`. */
  lemma TestAndScriptInstantiate(t: SolidityTemplate)
    ensures Contains(GenerateTest(t), "new " + t.contractName + ConstructorArgs(t.contractType))
    ensures Contains(GenerateScript(t), "new " + t.contractName + ConstructorArgs(t.contractType))
  {
    var name := t.contractName;
    TestAndScriptPiecesShaped();
    assert IsSuffix("new ", TestPieces[5]);
    assert IsSuffix("new ", ScriptPieces[6]);
    RenderContainsAdjacent(TestPieces, t.license, t.pragma, [name, name, name, name, ConstructorArgs(t.contractType)], 3, "new ");
    RenderContainsAdjacent(ScriptPieces, t.license, t.pragma, [name, name, name, name, name, ConstructorArgs(t.contractType)], 4, "new ");
  }
}
