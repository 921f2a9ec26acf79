/**
 * The configuration generator, which is a placeholder: every request fails
 * with a message naming the configuration asked for.
 */
module ConfigGeneration {
  import opened Errors
  import opened Chars
  import opened Text

  const NotImplementedTail := " is not yet implemented! This will be used to quickly scaffold config files like slither.json, foundry.toml, etc."

  /** `generate`: fails for every name, and the message quotes the name. */
  function Generate(name: string): (r: Result<Unit>)
    ensures r.Err? && r.error.Other?
    ensures Contains(r.error.message, "'" + name + "'")
  {
    var quoted := "'" + name + "'";
    ContainsInfix(("Config " + "generation " + "for "), quoted, NotImplementedTail);
    Err(Other(("Config " + "generation " + "for ") + quoted + NotImplementedTail))
  }
}
