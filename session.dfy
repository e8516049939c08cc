/** The session orchestrator (`main`): where the config comes from, the
    output flag, building the client, dispatching the one command, releasing
    the client for one-shot commands, and draining the client's event stream,
    persisting every rotated token before the next event is taken. */
module Session {
  import opened Common
  import opened Args
  import opened Api
  import opened Host
  import opened Router

  // ---------------------------------------------------------------------------
  // Loading

  /** The config file: `--config-file` (or its environment variable) when
      given, else `config.json` in the platform's per-user config directory,
      which may not exist. */
  function ConfigPath(configFile: Option<Path>, projectConfigDir: Option<Path>): (r: Result<Path>)
    ensures r.Success? <==> configFile.Some? || projectConfigDir.Some?
    ensures configFile.Some? ==> r.value == configFile.value
    ensures configFile.None? && r.Success? ==>
              r.value == projectConfigDir.value + "/config.json" && r.value[|r.value| - 12..] == "/config.json"
    ensures r.Failure? ==> r.error == NoBaseDirectory
  {
    match configFile
    case Some(path) => Success(path)
    case None =>
      match projectConfigDir
      case None => Failure(NoBaseDirectory)
      case Some(dir) => Success(dir + "/config.json")
  }

  /** `init` carries its own record and never reads the file; every other
      command loads it. */
  function InitialConfig(cmd: Command, files: map<Path, FileState>, path: Path): (r: Result<Config>)
    ensures r.Success? <==> (cmd.Configuration? && cmd.config.Init?) || (path in files && files[path].Stored?)
    ensures r.Failure? ==> r.error == ConfigNotFound(path) || r.error == ConfigMalformed(path)
  {
    if cmd.Configuration? && cmd.config.Init? then Success(cmd.config.conf)
    else LoadConfig(files, path)
  }

  /** `init` uses the record it was given whatever the file system holds; any
      other command fails with "config not found" when there is no file. */
  lemma InitBypassesConfigFile(cmd: Command, files: map<Path, FileState>, path: Path)
    ensures cmd.Configuration? && cmd.config.Init? ==> InitialConfig(cmd, files, path) == Success(cmd.config.conf)
    ensures !(cmd.Configuration? && cmd.config.Init?) && path !in files ==>
              InitialConfig(cmd, files, path) == Failure(ConfigNotFound(path))
    ensures !(cmd.Configuration? && cmd.config.Init?) && path in files && files[path].Stored? ==>
              InitialConfig(cmd, files, path) == Success(files[path].conf)
  {
  }

  // ---------------------------------------------------------------------------
  // Draining the event stream

  /** The state of the drain after some events: the in-memory config, what
      the drain last left in the config file (if it touched it), the effects
      so far, and whether it has failed (after which nothing more happens). */
  datatype Drained = Drained(conf: Config, stored: Option<FileState>, effects: seq<Effect>, result: Result<()>)

  /** One event: a new token replaces the config's token and is persisted at
      once, a failed write ending the drain; a pushed API event is printed;
      anything else is ignored. */
  function DrainStep(d: Drained, path: Path, outcome: WriteOutcome, compact: bool, e: ClientEvent): Drained {
    if d.result.Failure? then d
    else match e
      case NewAuthToken(token) =>
        var c := d.conf.(token := Some(token));
        (match outcome
         case Written => Drained(c, Some(Stored(c)), d.effects + [Wrote(path, c)], Success(()))
         case Refused => Drained(c, d.stored, d.effects, Failure(PersistFailed(path)))
         case Truncated => Drained(c, Some(Malformed), d.effects, Failure(PersistFailed(path))))
      case Api(event) => d.(effects := d.effects + [Printed(Json(EventValue(event), compact))])
      case OtherClientEvent(_) => d
  }

  /** The drain of `events`, in arrival order. */
  function DrainSpec(conf: Config, path: Path, outcome: WriteOutcome, compact: bool, events: seq<ClientEvent>): Drained
    decreases |events|
  {
    if events == [] then Drained(conf, None, [], Success(()))
    else DrainStep(DrainSpec(conf, path, outcome, compact, events[..|events| - 1]), path, outcome, compact, events[|events| - 1])
  }

  /** The tokens the stream delivers, in order. */
  function Tokens(events: seq<ClientEvent>): seq<string>
    decreases |events|
  {
    if events == [] then []
    else Tokens(events[..|events| - 1]) + (match events[|events| - 1] case NewAuthToken(t) => [t] case _ => [])
  }

  /** The pushed API events the stream delivers, in order. */
  function ApiEvents(events: seq<ClientEvent>): seq<ApiEvent>
    decreases |events|
  {
    if events == [] then []
    else ApiEvents(events[..|events| - 1]) + (match events[|events| - 1] case Api(ev) => [ev] case _ => [])
  }

  /** The records written, in order. */
  function Writes(effects: seq<Effect>): seq<Config>
    decreases |effects|
  {
    if effects == [] then []
    else Writes(effects[..|effects| - 1]) + (match effects[|effects| - 1] case Wrote(_, c) => [c] case _ => [])
  }

  /** The lines printed, in order. */
  function Lines(effects: seq<Effect>): seq<Line>
    decreases |effects|
  {
    if effects == [] then []
    else Lines(effects[..|effects| - 1]) + (match effects[|effects| - 1] case Printed(l) => [l] case _ => [])
  }

  /** Each event printed as one line in the session's output form. */
  function EventLines(events: seq<ApiEvent>, compact: bool): (lines: seq<Line>)
    ensures |lines| == |events|
    decreases |events|
  {
    if events == [] then []
    else EventLines(events[..|events| - 1], compact) + [Json(EventValue(events[|events| - 1]), compact)]
  }

  lemma DrainAppend(conf: Config, path: Path, outcome: WriteOutcome, compact: bool, events: seq<ClientEvent>, e: ClientEvent)
    ensures DrainSpec(conf, path, outcome, compact, events + [e])
            == DrainStep(DrainSpec(conf, path, outcome, compact, events), path, outcome, compact, e)
    ensures Tokens(events + [e]) == Tokens(events) + (match e case NewAuthToken(t) => [t] case _ => [])
    ensures ApiEvents(events + [e]) == ApiEvents(events) + (match e case Api(ev) => [ev] case _ => [])
  {
    assert (events + [e])[..|events|] == events;
  }

  lemma FiltersAppend(effects: seq<Effect>, x: Effect)
    ensures Writes(effects + [x]) == Writes(effects) + (match x case Wrote(_, c) => [c] case _ => [])
    ensures Lines(effects + [x]) == Lines(effects) + (match x case Printed(l) => [l] case _ => [])
  {
    assert (effects + [x])[..|effects|] == effects;
  }

  /** Once the drain has failed, later events change nothing: the process has
      already stopped. */
  lemma {:induction false} DrainFailureSticky(conf: Config, path: Path, outcome: WriteOutcome, compact: bool,
                                             events: seq<ClientEvent>, later: seq<ClientEvent>)
    requires DrainSpec(conf, path, outcome, compact, events).result.Failure?
    ensures DrainSpec(conf, path, outcome, compact, events + later) == DrainSpec(conf, path, outcome, compact, events)
    decreases |later|
  {
    if later == [] {
      assert events + later == events;
    } else {
      var front := later[..|later| - 1];
      assert events + later == (events + front) + [later[|later| - 1]];
      DrainFailureSticky(conf, path, outcome, compact, events, front);
      DrainAppend(conf, path, outcome, compact, events + front, later[|later| - 1]);
    }
  }

  /** The effects of events already consumed are never revised or reordered by
      later ones: the output and writes so far are a prefix of all of them. */
  lemma {:induction false} DrainPrefix(conf: Config, path: Path, outcome: WriteOutcome, compact: bool,
                                      events: seq<ClientEvent>, later: seq<ClientEvent>)
    ensures var before := DrainSpec(conf, path, outcome, compact, events).effects;
            var after := DrainSpec(conf, path, outcome, compact, events + later).effects;
            |before| <= |after| && after[..|before|] == before
    decreases |later|
  {
    if later == [] {
      assert events + later == events;
    } else {
      var front := later[..|later| - 1];
      assert events + later == (events + front) + [later[|later| - 1]];
      DrainPrefix(conf, path, outcome, compact, events, front);
      DrainAppend(conf, path, outcome, compact, events + front, later[|later| - 1]);
    }
  }

  /** With a writable config file every rotated token is written, in order,
      each as the whole record with only the token replaced; the file ends up
      holding the in-memory config, so no token is lost at exit. */
  lemma {:induction false} EveryRotationPersisted(conf: Config, path: Path, compact: bool, events: seq<ClientEvent>)
    ensures var d := DrainSpec(conf, path, Written, compact, events);
            && d.result.Success?
            && |Writes(d.effects)| == |Tokens(events)|
            && (forall i | 0 <= i < |Tokens(events)| :: Writes(d.effects)[i] == conf.(token := Some(Tokens(events)[i])))
            && d.conf == (if Tokens(events) == [] then conf else conf.(token := Some(Tokens(events)[|Tokens(events)| - 1])))
            && d.stored == (if Tokens(events) == [] then None else Some(Stored(d.conf)))
    decreases |events|
  {
    if events != [] {
      var front, e := events[..|events| - 1], events[|events| - 1];
      assert events == front + [e];
      EveryRotationPersisted(conf, path, compact, front);
      DrainAppend(conf, path, Written, compact, front, e);
      var d := DrainSpec(conf, path, Written, compact, front);
      match e {
        case NewAuthToken(t) =>
          FiltersAppend(d.effects, Wrote(path, d.conf.(token := Some(t))));
        case Api(ev) =>
          FiltersAppend(d.effects, Printed(Json(EventValue(ev), compact)));
        case OtherClientEvent(_) =>
      }
    }
  }

  /** Each pushed event adds its line to the end of the event lines. */
  lemma EventLinesAppend(events: seq<ApiEvent>, ev: ApiEvent, compact: bool)
    ensures EventLines(events + [ev], compact) == EventLines(events, compact) + [Json(EventValue(ev), compact)]
  {
    assert (events + [ev])[..|events|] == events;
  }

  predicate IsPrefix<T(==)>(a: seq<T>, b: seq<T>) {
    |a| <= |b| && b[..|a|] == a
  }

  lemma PrefixTransitive<T>(a: seq<T>, b: seq<T>, c: seq<T>)
    requires IsPrefix(a, b) && IsPrefix(b, c)
    ensures IsPrefix(a, c)
  {
    assert c[..|a|] == c[..|b|][..|a|];
  }

  /** A further event never takes back an event line. */
  lemma EventLinesGrow(events: seq<ClientEvent>, e: ClientEvent, compact: bool)
    ensures IsPrefix(EventLines(ApiEvents(events), compact), EventLines(ApiEvents(events + [e]), compact))
  {
    assert (events + [e])[..|events|] == events;
    var before := EventLines(ApiEvents(events), compact);
    match e {
      case Api(ev) =>
        EventLinesAppend(ApiEvents(events), ev, compact);
        assert (before + [Json(EventValue(ev), compact)])[..|before|] == before;
      case _ =>
        assert ApiEvents(events) + [] == ApiEvents(events);
    }
  }

  /** The drain prints the pushed API events, one line each, in arrival order,
      in the session's output form: all of them when it runs to the end, and
      those that arrived before the failed write otherwise. */
  lemma {:induction false} ApiEventsPrintedInOrder(conf: Config, path: Path, outcome: WriteOutcome, compact: bool,
                                                   events: seq<ClientEvent>)
    ensures var d := DrainSpec(conf, path, outcome, compact, events);
            && IsPrefix(Lines(d.effects), EventLines(ApiEvents(events), compact))
            && (d.result.Success? ==> Lines(d.effects) == EventLines(ApiEvents(events), compact))
    decreases |events|
  {
    if events != [] {
      var front, e := events[..|events| - 1], events[|events| - 1];
      assert events == front + [e];
      ApiEventsPrintedInOrder(conf, path, outcome, compact, front);
      DrainAppend(conf, path, outcome, compact, front, e);
      EventLinesGrow(front, e, compact);
      var d := DrainSpec(conf, path, outcome, compact, front);
      if d.result.Failure? {
        PrefixTransitive(Lines(d.effects), EventLines(ApiEvents(front), compact), EventLines(ApiEvents(events), compact));
      } else {
        match e {
          case NewAuthToken(t) =>
            assert ApiEvents(front) + [] == ApiEvents(front);
            if outcome == Written {
              FiltersAppend(d.effects, Wrote(path, d.conf.(token := Some(t))));
            }
          case Api(ev) =>
            EventLinesAppend(ApiEvents(front), ev, compact);
            FiltersAppend(d.effects, Printed(Json(EventValue(ev), compact)));
          case OtherClientEvent(_) =>
            assert ApiEvents(front) + [] == ApiEvents(front);
        }
      }
    }
  }

  /** When the config file cannot be written the drain fails exactly when a
      token arrives, with a persist error, having written nothing; a
      truncating write leaves a file that no longer holds a record, a refused
      one leaves the file alone. */
  lemma {:induction false} UnwritableFailsOnRotation(conf: Config, path: Path, outcome: WriteOutcome, compact: bool,
                                                     events: seq<ClientEvent>)
    requires outcome != Written
    ensures var d := DrainSpec(conf, path, outcome, compact, events);
            && (d.result.Failure? <==> Tokens(events) != [])
            && (d.result.Failure? ==> d.result.error == PersistFailed(path))
            && Writes(d.effects) == []
            && d.stored == (if Tokens(events) != [] && outcome == Truncated then Some(Malformed) else None)
    decreases |events|
  {
    if events != [] {
      var front, e := events[..|events| - 1], events[|events| - 1];
      assert events == front + [e];
      UnwritableFailsOnRotation(conf, path, outcome, compact, front);
      DrainAppend(conf, path, outcome, compact, front, e);
      var d := DrainSpec(conf, path, outcome, compact, front);
      if d.result.Success? {
        match e {
          case NewAuthToken(t) =>
          case Api(ev) =>
            FiltersAppend(d.effects, Printed(Json(EventValue(ev), compact)));
          case OtherClientEvent(_) =>
        }
      }
    }
  }

  /** The config files after a drain that last left `stored` at `path`, if anything. */
  function AfterDrain(files: map<Path, FileState>, path: Path, stored: Option<FileState>): map<Path, FileState> {
    if stored.Some? then files[path := stored.value] else files
  }

  /** A rotated token: the config takes it and is persisted at once. `d` is
      the drain so far, over a log that started as `log0` and files that
      started as `files0`. */
  method Rotate(conf: Config, token: string, path: Path, host: Host,
                ghost d: Drained, ghost log0: seq<Effect>, ghost files0: map<Path, FileState>)
    returns (newConf: Config, r: Result<()>)
    requires d.result.Success? && d.conf == conf
    requires host.log == log0 + d.effects && host.files == AfterDrain(files0, path, d.stored)
    modifies host`files, host`log
    ensures var next := DrainStep(d, path, OutcomeAt(host.outcomes, path), host.Compact(), NewAuthToken(token));
            && newConf == next.conf && r == next.result
            && host.log == log0 + next.effects
            && host.files == AfterDrain(files0, path, next.stored)
  {
    newConf := conf.(token := Some(token));
    r := host.Persist(path, newConf);
  }

  /** The `while let` loop over the event stream. */
  method Drain(conf: Config, path: Path, events: seq<ClientEvent>, host: Host) returns (finalConf: Config, r: Result<()>)
    modifies host`files, host`log
    ensures var d := DrainSpec(conf, path, OutcomeAt(host.outcomes, path), host.Compact(), events);
            && finalConf == d.conf && r == d.result
            && host.log == old(host.log) + d.effects
            && host.files == AfterDrain(old(host.files), path, d.stored)
  {
    ghost var outcome, compact := OutcomeAt(host.outcomes, path), host.Compact();
    ghost var d := DrainSpec(conf, path, outcome, compact, []);
    finalConf, r := conf, Success(());
    var i := 0;
    while i < |events|
      invariant 0 <= i <= |events|
      invariant d == DrainSpec(conf, path, outcome, compact, events[..i])
      invariant d.result == Success(()) && r == d.result && finalConf == d.conf
      invariant host.log == old(host.log) + d.effects
      invariant host.files == AfterDrain(old(host.files), path, d.stored)
    {
      assert events[..i + 1] == events[..i] + [events[i]];
      DrainAppend(conf, path, outcome, compact, events[..i], events[i]);
      match events[i] {
        case NewAuthToken(token) =>
          finalConf, r := Rotate(finalConf, token, path, host, d, old(host.log), old(host.files));
          d := DrainStep(d, path, outcome, compact, events[i]);
          if r.Failure? {
            DrainFailureSticky(conf, path, outcome, compact, events[..i + 1], events[i + 1..]);
            assert events[..i + 1] + events[i + 1..] == events;
            return;
          }
        case Api(event) =>
          host.Print(EventValue(event));
          d := DrainStep(d, path, outcome, compact, events[i]);
        case OtherClientEvent(_) =>
      }
      i := i + 1;
    }
    assert events[..i] == events;
  }

  // ---------------------------------------------------------------------------
  // The whole invocation

  /** What one invocation does. `connected` is the config the client was
      built from, if the session got that far; `released` whether the client
      was dropped before draining; `stored` what the drain last left in the
      config file, if it touched it. */
  datatype SessionOutcome = SessionOutcome(
    connected: Option<Config>,
    sent: seq<Request>,
    released: bool,
    effects: seq<Effect>,
    stored: Option<FileState>,
    result: Result<()>)

  /** From the moment the client is built: the command's trace, then (unless
      it failed) the release of one-shot clients and the drain. */
  function Connected(cmd: Command, subscription: bool, conf: Config, path: Path, outcome: WriteOutcome, compact: bool,
                     server: Request -> Reply, events: seq<ClientEvent>): SessionOutcome
  {
    var t := Route(cmd, conf, path, server, compact);
    if t.result.Failure? then SessionOutcome(Some(conf), t.sent, false, t.effects, None, t.result)
    else
      var d := DrainSpec(conf, path, outcome, compact, events);
      SessionOutcome(Some(conf), t.sent, !subscription, t.effects + d.effects, d.stored, d.result)
  }

  /** The whole invocation: the output flag is compact for `--compact` and for
      every event subscription; a missing base directory or config file ends it
      before any client exists. */
  function SessionSpec(args: CliArgs, subscription: bool, projectConfigDir: Option<Path>,
                       files: map<Path, FileState>, outcomes: map<Path, WriteOutcome>,
                       server: Request -> Reply, events: seq<ClientEvent>): SessionOutcome
  {
    match ConfigPath(args.configFile, projectConfigDir)
    case Failure(e) => SessionOutcome(None, [], false, [], None, Failure(e))
    case Success(path) =>
      match InitialConfig(args.command, files, path)
      case Failure(e) => SessionOutcome(None, [], false, [], None, Failure(e))
      case Success(conf) =>
        Connected(args.command, subscription, conf, path, OutcomeAt(outcomes, path), args.compact || subscription, server, events)
  }

  /** Builds the client from `conf`, dispatches the command, drops the client
      unless the command is a subscription, and drains the event stream. */
  method Serve(cmd: Command, subscription: bool, conf: Config, path: Path,
               server: Request -> Reply, events: seq<ClientEvent>, host: Host)
    returns (r: Result<()>, client: Client)
    modifies host`files, host`log
    ensures var s := Connected(cmd, subscription, conf, path, OutcomeAt(host.outcomes, path), host.Compact(), server, events);
            && r == s.result
            && host.log == old(host.log) + s.effects
            && host.files == AfterDrain(old(host.files), path, s.stored)
            && fresh(client) && client.server == server && client.authToken == conf.token
            && client.pluginName == conf.pluginName && client.pluginDeveloper == conf.pluginDeveloper
            && client.sent == s.sent && client.released == s.released
  {
    client := new Client(conf.token, conf.pluginName, conf.pluginDeveloper, server);
    r := Dispatch(client, host, cmd, conf, path);
    if r.Failure? {
      return;
    }

    if !subscription {
      client.Release();
    }

    var finalConf;
    finalConf, r := Drain(conf, path, events, host);
  }

  /** `main`. `isEventSubscription` classifies commands, `projectConfigDir` is
      the platform's config directory, `server` answers requests and `events`
      is what the client's event stream delivers before it ends (or, for a
      subscription, before the process is interrupted). */
  method Run(args: CliArgs, isEventSubscription: Command -> bool, projectConfigDir: Option<Path>,
             server: Request -> Reply, events: seq<ClientEvent>, host: Host)
    returns (r: Result<()>, client: Client?)
    requires host.compactCell.None?
    modifies host`compactCell, host`files, host`log
    ensures var s := SessionSpec(args, isEventSubscription(args.command), projectConfigDir,
                                 old(host.files), host.outcomes, server, events);
            && r == s.result
            && host.Compact() == (args.compact || isEventSubscription(args.command))
            && host.log == old(host.log) + s.effects
            && (client == null <==> s.connected.None?)
            && (client != null ==>
                  && fresh(client) && client.server == server
                  && client.authToken == s.connected.value.token
                  && client.pluginName == s.connected.value.pluginName
                  && client.pluginDeveloper == s.connected.value.pluginDeveloper
                  && client.sent == s.sent && client.released == s.released)
            && (s.connected.None? ==> host.files == old(host.files))
            && (s.connected.Some? ==>
                  host.files == AfterDrain(old(host.files), ConfigPath(args.configFile, projectConfigDir).value, s.stored))
  {
    client := null;
    var subscription := isEventSubscription(args.command);
    host.SetCompact(args.compact || subscription);

    var configPath := ConfigPath(args.configFile, projectConfigDir);
    if configPath.Failure? {
      return Failure(configPath.error), null;
    }
    var path := configPath.value;

    var conf: Config;
    if args.command.Configuration? && args.command.config.Init? {
      conf := args.command.config.conf;
    } else {
      var loaded := host.Load(path);
      if loaded.Failure? {
        return Failure(loaded.error), null;
      }
      conf := loaded.value;
    }

    var served;
    r, served := Serve(args.command, subscription, conf, path, server, events, host);
    client := served;
  }

  // ---------------------------------------------------------------------------
  // Properties of the whole invocation

  lemma PrintedInConcat(a: seq<Effect>, b: seq<Effect>, compact: bool)
    requires PrintedIn(a, compact) && PrintedIn(b, compact)
    ensures PrintedIn(a + b, compact)
  {
    forall k | 0 <= k < |a + b|
      ensures (a + b)[k].Printed? && (a + b)[k].line.Json? ==> (a + b)[k].line.compact == compact
    {
      if k >= |a| { assert (a + b)[k] == b[k - |a|]; }
    }
  }

  /** The drain prints every event in the session's one output form. */
  lemma {:induction false} DrainPrintsInSessionForm(conf: Config, path: Path, outcome: WriteOutcome, compact: bool,
                                                    events: seq<ClientEvent>)
    ensures PrintedIn(DrainSpec(conf, path, outcome, compact, events).effects, compact)
    decreases |events|
  {
    if events != [] {
      var front, e := events[..|events| - 1], events[|events| - 1];
      DrainPrintsInSessionForm(conf, path, outcome, compact, front);
      var d := DrainSpec(conf, path, outcome, compact, front);
      if d.result.Success? {
        match e {
          case NewAuthToken(t) =>
            PrintedInConcat(d.effects, [Wrote(path, d.conf.(token := Some(t)))], compact);
          case Api(ev) =>
            PrintedInConcat(d.effects, [Printed(Json(EventValue(ev), compact))], compact);
          case OtherClientEvent(_) =>
        }
      }
    }
  }

  /** Every serialised line of the invocation, the command's and the drain's,
      is compact exactly when `--compact` was given or the command is an event
      subscription. */
  lemma SessionOutputForm(args: CliArgs, subscription: bool, projectConfigDir: Option<Path>,
                          files: map<Path, FileState>, outcomes: map<Path, WriteOutcome>,
                          server: Request -> Reply, events: seq<ClientEvent>)
    ensures PrintedIn(SessionSpec(args, subscription, projectConfigDir, files, outcomes, server, events).effects,
                      args.compact || subscription)
  {
    var compact := args.compact || subscription;
    var p := ConfigPath(args.configFile, projectConfigDir);
    if p.Success? {
      var c := InitialConfig(args.command, files, p.value);
      if c.Success? {
        RouteShape(args.command, c.value, p.value, server, compact);
        DrainPrintsInSessionForm(c.value, p.value, OutcomeAt(outcomes, p.value), compact, events);
        PrintedInConcat(Route(args.command, c.value, p.value, server, compact).effects,
                        DrainSpec(c.value, p.value, OutcomeAt(outcomes, p.value), compact, events).effects, compact);
      }
    }
  }

  /** Without a config path or config record no client is built: nothing is
      sent, printed or written, and the invocation fails with that error. */
  lemma NoConfigNoConnection(args: CliArgs, subscription: bool, projectConfigDir: Option<Path>,
                             files: map<Path, FileState>, outcomes: map<Path, WriteOutcome>,
                             server: Request -> Reply, events: seq<ClientEvent>)
    ensures var s := SessionSpec(args, subscription, projectConfigDir, files, outcomes, server, events);
            var p := ConfigPath(args.configFile, projectConfigDir);
            && (s.connected.None? <==> p.Failure? || InitialConfig(args.command, files, p.value).Failure?)
            && (s.connected.None? ==> s.sent == [] && s.effects == [] && s.stored.None? && !s.released && s.result.Failure?)
            && (p.Failure? ==> s.result == Failure(p.error))
            && (p.Success? && InitialConfig(args.command, files, p.value).Failure? ==>
                  s.result == Failure(InitialConfig(args.command, files, p.value).error))
  {
  }

  /** The client is dropped before the drain only for one-shot commands, and
      always for them once the command itself succeeded, whatever the drain
      does afterwards. */
  lemma ReleaseOnlyOneShot(args: CliArgs, subscription: bool, projectConfigDir: Option<Path>,
                           files: map<Path, FileState>, outcomes: map<Path, WriteOutcome>,
                           server: Request -> Reply, events: seq<ClientEvent>)
    ensures var s := SessionSpec(args, subscription, projectConfigDir, files, outcomes, server, events);
            && (s.released ==> !subscription)
            && (s.result.Success? ==> s.connected.Some? && (s.released <==> !subscription))
            && (s.connected.Some? ==>
                  var path := ConfigPath(args.configFile, projectConfigDir).value;
                  Route(args.command, s.connected.value, path, server, args.compact || subscription).result.Success? ==>
                    (s.released <==> !subscription))
  {
    var p := ConfigPath(args.configFile, projectConfigDir);
    if p.Success? {
      var c := InitialConfig(args.command, files, p.value);
      if c.Success? {
        var compact := args.compact || subscription;
        var t := Route(args.command, c.value, p.value, server, compact);
        if t.result.Success? {
          var d := DrainSpec(c.value, p.value, OutcomeAt(outcomes, p.value), compact, events);
          assert SessionSpec(args, subscription, projectConfigDir, files, outcomes, server, events).released == !subscription;
        }
      }
    }
  }

  /** With a writable config file and a command that succeeded, the session
      succeeds and the file ends up holding the loaded config with the last
      token the stream delivered (untouched when none arrived). */
  lemma {:induction false} LastTokenPersisted(args: CliArgs, subscription: bool, projectConfigDir: Option<Path>,
                                              files: map<Path, FileState>, outcomes: map<Path, WriteOutcome>,
                                              server: Request -> Reply, events: seq<ClientEvent>)
    requires ConfigPath(args.configFile, projectConfigDir).Success?
    requires OutcomeAt(outcomes, ConfigPath(args.configFile, projectConfigDir).value) == Written
    requires InitialConfig(args.command, files, ConfigPath(args.configFile, projectConfigDir).value).Success?
    ensures var s := SessionSpec(args, subscription, projectConfigDir, files, outcomes, server, events);
            var conf := InitialConfig(args.command, files, ConfigPath(args.configFile, projectConfigDir).value).value;
            var tokens := Tokens(events);
            s.result.Success? ==>
              s.stored == (if tokens == [] then None else Some(Stored(conf.(token := Some(tokens[|tokens| - 1])))))
  {
    var path := ConfigPath(args.configFile, projectConfigDir).value;
    var conf := InitialConfig(args.command, files, path).value;
    EveryRotationPersisted(conf, path, args.compact || subscription, events);
  }

  /** What the next invocation loads after this one: the last record written,
      or, after a write that failed part-way, a file that no longer parses. */
  lemma NextLoadAfterSession(args: CliArgs, subscription: bool, projectConfigDir: Option<Path>,
                             files: map<Path, FileState>, outcomes: map<Path, WriteOutcome>,
                             server: Request -> Reply, events: seq<ClientEvent>)
    requires ConfigPath(args.configFile, projectConfigDir).Success?
    ensures var s := SessionSpec(args, subscription, projectConfigDir, files, outcomes, server, events);
            var path := ConfigPath(args.configFile, projectConfigDir).value;
            var next := LoadConfig(AfterDrain(files, path, s.stored), path);
            && (s.stored.None? ==> next == LoadConfig(files, path))
            && (s.stored.Some? && s.stored.value.Stored? ==> next == Success(s.stored.value.conf))
            && (s.stored == Some(Malformed) ==> next == Failure(ConfigMalformed(path)) && s.result.Failure?)
  {
    var path := ConfigPath(args.configFile, projectConfigDir).value;
    var c := InitialConfig(args.command, files, path);
    if c.Success? {
      var compact := args.compact || subscription;
      var t := Route(args.command, c.value, path, server, compact);
      if t.result.Success? && OutcomeAt(outcomes, path) != Written {
        UnwritableFailsOnRotation(c.value, path, OutcomeAt(outcomes, path), compact, events);
      } else if t.result.Success? {
        EveryRotationPersisted(c.value, path, compact, events);
      }
    }
  }
}
