/** The target language of generated code, chosen by two mutually exclusive flags. */
module Languages {
  import opened Errors

  datatype Language = Solidity | RustStylus

  const NoLanguageMessage := "Must specify either --solidity or --rust-stylus"
  const BothLanguagesMessage := "Cannot specify both --solidity and --rust-stylus"

  /** Exactly one of `--solidity` / `--rust-stylus` selects a language; none or both is an error. */
  function FromFlags(solidity: bool, rustStylus: bool): (r: Result<Language>)
    ensures r.Ok? <==> solidity != rustStylus
    ensures r == Ok(Solidity) <==> solidity && !rustStylus
    ensures r == Ok(RustStylus) <==> rustStylus && !solidity
    ensures !solidity && !rustStylus ==> r == Err(Other(NoLanguageMessage))
    ensures solidity && rustStylus ==> r == Err(Other(BothLanguagesMessage))
  {
    match (solidity, rustStylus)
    case (true, false) => Ok(Solidity)
    case (false, true) => Ok(RustStylus)
    case (false, false) => Err(Other(NoLanguageMessage))
    case (true, true) => Err(Other(BothLanguagesMessage))
  }
}
