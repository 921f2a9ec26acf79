/**
 * The naming rule every generator and the wizard apply to a contract,
 * library, script or test name: not empty, a letter first, and only
 * letters, digits and underscores.
 */
module Names {
  import opened Errors
  import opened Chars

  /** The three ways a name can break the rule, in the order they are checked. */
  datatype NameProblem = Empty | NoLeadingLetter | BadCharacter

  predicate Allowed(c: char)
  {
    IsAlphanumeric(c) || c == '_'
  }

  /** The rule, stated over the whole name. */
  predicate ValidName(name: string)
  {
    |name| > 0 && IsAlphabetic(name[0]) && forall i :: 0 <= i < |name| ==> Allowed(name[i])
  }

  /** `chars().all(..)`: every character allowed, scanned from the front. */
  function AllAllowed(s: string): (r: bool)
    ensures r <==> forall i :: 0 <= i < |s| ==> Allowed(s[i])
  {
    |s| == 0 || (Allowed(s[0]) && AllAllowed(s[1..]))
  }

  /** The first rule a name breaks, if any. */
  function CheckName(name: string): (r: Option<NameProblem>)
    ensures r.None? <==> ValidName(name)
    ensures r == Some(Empty) <==> |name| == 0
    ensures r == Some(NoLeadingLetter) <==> |name| > 0 && !IsAlphabetic(name[0])
    ensures r == Some(BadCharacter) <==>
      |name| > 0 && IsAlphabetic(name[0]) && exists i :: 0 <= i < |name| && !Allowed(name[i])
  {
    if |name| == 0 then Some(Empty)
    else if !IsAlphabetic(name[0]) then Some(NoLeadingLetter)
    else if !AllAllowed(name) then Some(BadCharacter)
    else None
  }

  /** The message for a problem, for a name of the given kind ("Contract", "Library", ...). */
  function ProblemMessage(kind: string, p: NameProblem): string
  {
    match p
    case Empty => kind + (" name " + "cannot " + "be " + "empty")
    case NoLeadingLetter => kind + (" name " + "must " + "start " + "with " + "a " + "letter")
    case BadCharacter => kind + (" name " + "can " + "only " + "contain " + "letters, " + "numbers, " + "and " + "underscores")
  }

  /** How a generator reports a bad name. */
  datatype Reporting = AsInvalidName | AsOther

  /** A generator's `validate_name`: the first broken rule, reported under the generator's kind and variant. */
  function ValidateName(kind: string, reporting: Reporting, name: string): (r: Result<Unit>)
    ensures r.Ok? <==> ValidName(name)
    ensures r.Err? ==> r.error == (match reporting
                                   case AsInvalidName => InvalidContractName(ProblemMessage(kind, CheckName(name).value))
                                   case AsOther => Other(ProblemMessage(kind, CheckName(name).value)))
  {
    match CheckName(name)
    case None => Ok(Unit)
    case Some(p) =>
      match reporting
      case AsInvalidName => Err(InvalidContractName(ProblemMessage(kind, p)))
      case AsOther => Err(Other(ProblemMessage(kind, p)))
  }

  lemma NameExamples()
    ensures CheckName(("Valid_Name_1" + "23")).None?
    ensures CheckName("") == Some(Empty)
    ensures CheckName("123Contract") == Some(NoLeadingLetter)
    ensures CheckName(("Contract-Nam" + "e")) == Some(BadCharacter)
  {
    assert !Allowed(("Contract-Nam" + "e")[8]);
  }
}
