/**
 * The error type shared by every operation of the scaffolder, and the
 * result/option wrappers the rest of the model returns.
 */
module Errors {

  datatype Option<T> = None | Some(value: T)

  /** `Option::unwrap_or`: the value, or `default` when there is none. */
  function OrDefault(o: Option<string>, default: string): (r: string)
    ensures o.Some? ==> r == o.value
    ensures o.None? ==> r == default
  {
    match o
    case Some(v) => v
    case None => default
  }

  /** One variant per failure the library reports. */
  datatype GramrError =
    | NotFoundryProject
    | FoundryNotInstalled
    | ProjectNotFound(detail: string)
    | FileExists(path: string)
    | FileCreationError(detail: string)
    | ForgeCommandError(stderr: string)
    | InvalidContractName(reason: string)
    | IoError(detail: string)
    | Other(message: string)

  datatype Result<T> = Ok(value: T) | Err(error: GramrError)

  /** The value of an operation that only succeeds or fails. */
  datatype Unit = Unit

  /** The text the error displays, as its `#[error(..)]` attribute spells it. */
  function Message(e: GramrError): string
  {
    match e
    case NotFoundryProject =>
      "Not in a Foundry project. Please run this command from a Foundry project directory."
    case FoundryNotInstalled =>
      "Foundry is not installed. Please install Foundry first: https://getfoundry.sh"
    case ProjectNotFound(d) => "Project not found: " + d
    case FileExists(p) => "File already exists: " + p
    case FileCreationError(d) => "Failed to create file: " + d
    case ForgeCommandError(s) => "Failed to run forge command: " + s
    case InvalidContractName(r) => "Invalid contract name: " + r
    case IoError(d) => "IO error: " + d
    case Other(m) => "Other error: " + m
  }
}
