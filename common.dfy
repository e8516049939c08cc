/** Values shared by every part of the command-line client: optional values,
    results, file paths and the errors an invocation can end with. */
module Common {

  datatype Option<+T> = None | Some(value: T) {
    /** `Option::unwrap_or`. */
    function GetOr(default: T): T {
      match this
      case Some(v) => v
      case None => default
    }
  }

  datatype Result<+T> = Success(value: T) | Failure(error: Error)

  /** A file-system path, as text. */
  type Path = string

  /** The two kinds of resource a user may name instead of giving its id. */
  datatype Resource = HotkeyResource | ModelResource

  /** Every way one invocation can fail; each ends the process with a
      non-zero exit status and a message naming the stage. */
  datatype Error =
    | NoBaseDirectory                          // the platform has no per-user config directory
    | ConfigNotFound(path: Path)               // the config file could not be read (run `init`)
    | ConfigMalformed(path: Path)              // the config file is not a valid record
    | MissingSelector                          // neither `id` nor `name` was given
    | NameNotFound(kind: Resource, name: string) // no listed record carries this name
    | Transport(reason: string)                // any failure reported by the RPC client
    | UnexpectedResponse                       // a reply of the wrong shape for its request
    | PersistFailed(path: Path)                // a rotated token could not be written
    | UnknownStrengthOrWind(value: string)     // physics kind is neither `strength` nor `wind`
    | InvalidHexColor(value: string)           // a colour argument the hex parser rejects
}
