/** The process's environment as far as the core touches it: standard output,
    the clock (only delays), and the configuration file. Everything observable
    is kept in one log, in the order it happened. */
module Host {
  import opened Common
  import opened Args
  import opened Api

  /** A value the output formatter serialises. */
  datatype Printable = ResponseValue(response: Response) | ConfigValue(conf: Config) | EventValue(event: ApiEvent)

  /** One line of standard output: a serialised value in compact or pretty
      form, or the config path in its debug form (which ignores the flag). */
  datatype Line = Json(value: Printable, compact: bool) | DebugPath(path: Path)

  datatype Effect =
    | Printed(line: Line)
    | Slept(ms: nat)
    | Wrote(path: Path, conf: Config)

  /** Every serialised line among `effects` is in the form `compact` selects. */
  predicate PrintedIn(effects: seq<Effect>, compact: bool) {
    forall k | 0 <= k < |effects| :: effects[k].Printed? && effects[k].line.Json? ==> effects[k].line.compact == compact
  }

  /** What a path holds as far as the config loader is concerned. */
  datatype FileState = Stored(conf: Config) | Malformed

  /** How writing the config file turns out: the record is written; the write
      is refused before the file is touched (its directory cannot be created,
      or the file cannot be opened); or the write fails after the file was
      truncated, leaving a partial record behind. */
  datatype WriteOutcome = Written | Refused | Truncated

  /** The outcome of writing at `path`; paths not listed are written normally. */
  function OutcomeAt(outcomes: map<Path, WriteOutcome>, path: Path): WriteOutcome {
    if path in outcomes then outcomes[path] else Written
  }

  /** Reading the config file at `path`: a missing or unreadable file, a file
      that is not a config record, or the record it holds. */
  function LoadConfig(files: map<Path, FileState>, path: Path): (r: Result<Config>)
    ensures r.Success? <==> path in files && files[path].Stored?
    ensures r.Success? ==> r.value == files[path].conf
    ensures path !in files ==> r == Failure(ConfigNotFound(path))
  {
    if path !in files then Failure(ConfigNotFound(path))
    else match files[path]
      case Stored(c) => Success(c)
      case Malformed => Failure(ConfigMalformed(path))
  }

  class Host {
    /** The process-wide "compact output" cell: set at most once. */
    var compactCell: Option<bool>
    var files: map<Path, FileState>
    /** How a write to each path turns out. */
    const outcomes: map<Path, WriteOutcome>
    var log: seq<Effect>

    constructor (files: map<Path, FileState>, outcomes: map<Path, WriteOutcome>)
      ensures compactCell == None && this.files == files && this.outcomes == outcomes && log == []
    {
      compactCell := None;
      this.files := files;
      this.outcomes := outcomes;
      log := [];
    }

    /** The flag every print reads: the cell's value, or pretty output if unset. */
    function Compact(): bool
      reads this`compactCell
    {
      compactCell.GetOr(false)
    }

    /** `OnceCell::set`: only the first call has an effect. */
    method SetCompact(b: bool)
      modifies this`compactCell
      ensures compactCell == if old(compactCell).None? then Some(b) else old(compactCell)
    {
      if compactCell.None? {
        compactCell := Some(b);
      }
    }

    method Print(value: Printable)
      modifies this`log
      ensures log == old(log) + [Printed(Json(value, Compact()))]
    {
      log := log + [Printed(Json(value, Compact()))];
    }

    method PrintPath(path: Path)
      modifies this`log
      ensures log == old(log) + [Printed(DebugPath(path))]
    {
      log := log + [Printed(DebugPath(path))];
    }

    method Sleep(ms: nat)
      modifies this`log
      ensures log == old(log) + [Slept(ms)]
    {
      log := log + [Slept(ms)];
    }

    method Load(path: Path) returns (r: Result<Config>)
      ensures r == LoadConfig(files, path)
    {
      r := LoadConfig(files, path);
    }

    /** Creates the parent directory and writes the record. Both a refused and
        a truncating write are reported as a persist failure; only the latter
        changes the file, which then no longer holds a record. A written record
        loads back unchanged. */
    method Persist(path: Path, conf: Config) returns (r: Result<()>)
      modifies this`files, this`log
      ensures OutcomeAt(outcomes, path) == Written ==>
                && r == Success(())
                && files == old(files)[path := Stored(conf)]
                && log == old(log) + [Wrote(path, conf)]
      ensures OutcomeAt(outcomes, path) == Refused ==>
                r == Failure(PersistFailed(path)) && files == old(files) && log == old(log)
      ensures OutcomeAt(outcomes, path) == Truncated ==>
                r == Failure(PersistFailed(path)) && files == old(files)[path := Malformed] && log == old(log)
      ensures r.Success? ==> LoadConfig(files, path) == Success(conf)
      ensures r.Failure? ==> LoadConfig(files, path) == old(LoadConfig(files, path)) || LoadConfig(files, path) == Failure(ConfigMalformed(path))
    {
      match OutcomeAt(outcomes, path) {
        case Written =>
          files := files[path := Stored(conf)];
          log := log + [Wrote(path, conf)];
          r := Success(());
        case Refused =>
          r := Failure(PersistFailed(path));
        case Truncated =>
          files := files[path := Malformed];
          r := Failure(PersistFailed(path));
      }
    }
  }
}
