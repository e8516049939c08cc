# vtubestudio-cli: command routing and session, in Dafny

`vts` is a command-line client for the VTube Studio plugin API. Each invocation does the following:

1. It sets the process-wide "compact JSON" flag.
2. It works out where its config file lives.
3. It takes the connection record from the `init` command or from that file.
4. It builds an API client and sends the one command's request or requests, printing the replies.
5. It drops the client unless the command is an event subscription.
6. It drains the client's event stream:
   - each rotated authentication token is written back to the config file before the next event is taken;
   - each pushed API event is printed.

This project models that core: `main` and the command handlers of `src/main.rs`, and the small value parsers and the config record of `src/args.rs`.

How the model is laid out:

- `common.dfy`: `Option`, `Result`, and the error kinds the program can end with.
- `args.dfy`:
  - the config record and the defaults `init` fills in;
  - the command union `main` dispatches on;
  - the physics-kind parser and its variants;
  - `SetPhysicsCommand::kind`;
  - the hex-colour wrapper.
- `api.dfy`:
  - the requests the router builds;
  - the three responses it looks inside (hotkey list, model list, tint result);
  - client events;
  - the client itself, a `class` whose `sent` field logs every request and whose replies come from an input function `server`.
- `host.dfy`:
  - standard output, delays and the config file, as one ordered effect log in a `Host` class;
  - the once-only compact flag.
- `router.dfy`:
  - for each command, a pure `Route*` function stating the requests sent, the effects and the result;
  - the `Handle*` / `Dispatch` methods, which drive a live `Client` and `Host` and are proved to do exactly what those functions say;
  - name resolution and request construction as total functions;
  - lemmas about all of these.
- `session.dfy`:
  - config path and config choice;
  - the drain as a state machine (`DrainSpec`) and as the imperative loop `Drain` proved against it;
  - the whole invocation as `SessionSpec`, with the methods `Serve` and `Run` proved against it;
  - lemmas about token persistence, output order, output form and client release.

The command union follows `src/main.rs`, because `src/args.rs` is out of step with it in several places:

- `Command` in `src/args.rs:36-68` has no `Items` or `Events` variant and no `is_event_subscription`.
- `ItemsCommand` and `EventsCommand`, which `main.rs` matches on, are not defined in `src/args.rs` at all.
- `InjectParam` (`src/args.rs:118-126`) has no `add` field, although `main.rs` reads `req.add` to choose the injection mode.
- `HotkeysCommand::List` lacks `live2d_file`.
- `TriggerHotkey` lacks `item`.
- `ArtmeshesCommand` lacks `Select`.

The model carries what `main.rs` reads.

## Model

| member | source | states |
|---|---|---|
| `Args.InitConfigDefaults` | src/args.rs:21-33 | with no flags, `init` builds host "localhost", port 8001, plugin name "VTube Studio CLI", developer "Walfie", and the token as supplied (optional); every given flag overrides its default |
| `Args.ParseStrengthOrWind` | src/args.rs:344-357 | parsing succeeds exactly on the two listed spellings; "strength" gives `Strength`, "wind" gives `Wind`; any other string fails with an error naming it |
| `Args.VariantsRoundTrip` | src/args.rs:338-356 | every advertised variant parses; the two variants give distinct kinds; every kind is reached by some variant |
| `Args.KindOfEitherVariant` | src/args.rs:323-330 | `kind()` returns the `kind` field of whichever variant, base or multiplier, it is given |
| `Args.TrimStartHashes` | src/args.rs:218 | the result is a suffix of the input; every character dropped is `#`; the result does not start with `#` |
| `Args.TrimHashPrefix` | src/args.rs:218 | any number of leading `#` is stripped completely and nothing after them is touched |
| `Args.ParseHexColor` | src/args.rs:214-228 | succeeds exactly when the colour reader accepts the text without leading `#`; channels are copied; alpha defaults to 255; a failure names the original text |
| `Args.HashPrefixIgnored` | src/args.rs:217-219 | prefixing a colour with any number of `#` does not change the parse |
| `Host.LoadConfig` | src/main.rs:42-54 | a config loads exactly when the file exists and holds a record, which is returned; a missing file is "config not found" |
| `Host.Host.Persist` | src/main.rs:149-159 | writing the token-updated record: a written record loads back unchanged and the write is logged; a refused write (directory or file cannot be opened) fails and changes nothing; a write that fails after truncating fails and leaves a file that no longer holds a record |
| `Host.Host.SetCompact` | src/main.rs:18-24 | the compact flag is set only by its first assignment |
| `Router.SelectHotkey` | src/main.rs:268-285 | an explicit id is used as is with no lookup; otherwise, with a name, the hotkey listing is the one lookup and its reply decides (transport error, first match by name, or unexpected reply); neither gives the missing-selector error |
| `Router.SelectModel` | src/main.rs:377-389 | the same chain for models over the available-models listing |
| `Router.FindFirst` | src/main.rs:278-282 | the position found satisfies the predicate and no earlier one does; none found means no element does |
| `Router.HotkeyNamed` | src/main.rs:278-282 | resolution succeeds exactly when some listed hotkey has the name; the id is that of the first such hotkey; otherwise a hotkey-not-found error naming it |
| `Router.ModelNamed` | src/main.rs:382-386 | the same rule over the available models, with a model-not-found error |
| `Router.FirstHotkeyWins` | src/main.rs:278-282 | with duplicate names, the earliest listed hotkey's id is the one resolved |
| `Router.FirstModelWins` | src/main.rs:382-386 | with duplicate names, the earliest listed model's id is the one resolved |
| `Router.TriggerById` | src/main.rs:267-269 | an explicit id sends exactly one request, the trigger with that id and item, and no listing |
| `Router.TriggerByName` | src/main.rs:270-292 | by name: the hotkey listing, then the trigger of the first hotkey of that name |
| `Router.TriggerUnknownName` | src/main.rs:278-282 | no hotkey of that name: only the listing is sent, nothing is printed, and the error names the hotkey |
| `Router.TriggerWithoutSelector` | src/main.rs:283-285 | neither id nor name: no request is sent and the command fails |
| `Router.LoadModelById` | src/main.rs:376-379 | an explicit model id sends only the load request for it |
| `Router.LoadModelByName` | src/main.rs:379-393 | by name: the model listing, then the load of the first model of that name |
| `Router.LoadModelUnknownName` | src/main.rs:382-386 | no model of that name: only the listing is sent, nothing is printed, and the error names the model |
| `Router.LoadModelWithoutSelector` | src/main.rs:387-389 | neither id nor name: no request is sent and the command fails |
| `Router.DuplicateModelNameLoadsFirst` | src/main.rs:382-391 | two models named "Alice" with ids "a1", "a2": the listing and then the load of "a1" |
| `Router.InjectRequest` | src/main.rs:224-244 | the injection carries exactly the one given parameter value; its mode is Add when `add` is set and Set otherwise; `face_found` is copied |
| `Router.ExpressionRequest` | src/main.rs:419-449 | listing asks for the expression state; activate and deactivate send the file with `active` true exactly for activate |
| `Router.NdiRequest` | src/main.rs:457-481 | `set_new_config` is on exactly for a set; get sends the default record; set copies the five given values |
| `Router.AnimationRequest` | src/main.rs:605-623 | the play state is changed to true on `play`, false on `stop` alone, left alone otherwise; `reset` clears the auto-stop frames, a non-empty list replaces them, otherwise they are left alone; the other fields are copied |
| `Router.PhysicsRequestFor` | src/main.rs:495-521 | exactly one override, in the list of the command's kind, the other list empty; base sets `set_base_value` with an empty id; a multiplier carries its group id with `set_base_value` off; value and duration copied |
| `Router.BuildPhysicsRequest` | src/main.rs:497-521 | the step-by-step construction from default records yields exactly that request |
| `Router.WindMultiplierRequest` | src/main.rs:507-520 | a wind multiplier for group "g1", 0.8, one second gives one wind override ("g1", 0.8, not base, 1000 ms) and no strength override |
| `Router.RouteTint` | src/main.rs:308-340 | one tint request; success exactly on a tint reply; on success the reply is printed first and the wait of the requested duration follows exactly when at least one art mesh matched; nothing observable on failure |
| `Router.ItemsRequest` | src/main.rs:531-631 | item loads never unload with the plugin's disconnection, a move moves exactly one item, animation uses the collapsed flags, listing and unloading copy their arguments |
| `Router.TintWaitsOnlyOnMatch` | src/main.rs:308-343 | the tint waits exactly when the reply reports at least one matched art mesh, for the requested duration, after printing the reply |
| `Router.RouteShape` | src/main.rs:65-138 | every command: at most two requests, two only when a listing resolves a name first; no output on failure; at most one printed line, in the session's form; a wait only after a tint; a success sends or prints something |
| `Router.Route` | src/main.rs:65-138 | `config show` and `config path` never contact the application and print the record or the path; `init` sends only the statistics request (the permission prompt) and prints nothing; the event test sends only the subscription request; the five plain queries send one request and print its reply when it succeeds |
| `Router.Dispatch` | src/main.rs:65-138 | the requests sent, the effects logged and the result are exactly those the routing function gives for the command |
| `Router.HandleHotkeys` | src/main.rs:250-298 | the hotkey handler sends, prints and fails exactly as the hotkey route says |
| `Router.HandleModels` | src/main.rs:364-411 | the model handler sends, prints and fails exactly as the model route says |
| `Router.HandleArtmeshes` | src/main.rs:300-362 | the art-mesh handler, including the tint wait, is exactly the art-mesh route |
| `Router.HandlePhysics` | src/main.rs:486-529 | the physics handler sends exactly the constructed request and prints the reply |
| `Router.HandleParams` | src/main.rs:184-248 | the parameter handler sends exactly the route's request and prints the reply |
| `Session.ConfigPath` | src/main.rs:28-40 | the `--config-file` path when given; otherwise `config.json` in the platform's config directory; without either, the base-directory error |
| `Session.InitialConfig` | src/main.rs:42-54 | the record is available exactly for `init` or when the file holds one; any failure is "config not found" or "config malformed" at that path |
| `Session.InitBypassesConfigFile` | src/main.rs:42-54 | `init` uses its own record whatever the file system holds; any other command loads the file and fails when it is missing |
| `Session.DrainFailureSticky` | src/main.rs:149-156 | after a failed write the drain stops: later events change nothing |
| `Session.DrainPrefix` | src/main.rs:144-168 | effects of consumed events are never revised: what happened so far is a prefix of what happens later |
| `Session.EveryRotationPersisted` | src/main.rs:146-160 | with a writable file, every rotated token is written in order as the whole record with only the token replaced, and the in-memory config and the file end equal |
| `Session.ApiEventsPrintedInOrder` | src/main.rs:144-166 | whatever the config file does, the drain prints the pushed API events, one line each, in arrival order: all of them when it runs to the end, a prefix of them when a write fails |
| `Session.UnwritableFailsOnRotation` | src/main.rs:149-156 | with a file that cannot be written, the drain fails exactly when a token arrives, with a persist error, having written nothing; a truncating write leaves a file without a record, a refused one leaves it alone |
| `Session.Rotate` | src/main.rs:146-160 | one rotated token: the config takes the token and is persisted before anything else happens, exactly as one step of the drain state machine |
| `Session.Drain` | src/main.rs:144-168 | the loop's final config, result, effect log and file contents are those of the drain state machine over the events |
| `Session.DrainPrintsInSessionForm` | src/main.rs:162-164 | every event line is printed in the session's one output form |
| `Session.SessionOutputForm` | src/main.rs:23-24 | every serialised line of the invocation is compact exactly when `--compact` was given or the command is an event subscription |
| `Session.NoConfigNoConnection` | src/main.rs:28-54 | without a config path or record, no client is built and nothing is sent, printed or written; the invocation fails with the path error or the load error |
| `Session.ReleaseOnlyOneShot` | src/main.rs:140-142 | the client is dropped only for non-subscription commands, and always for them once the command itself succeeded, whatever the drain does after |
| `Session.LastTokenPersisted` | src/main.rs:146-160 | with a writable file and a successful session, the file ends holding the loaded config with the last delivered token, and is untouched when none arrived |
| `Session.NextLoadAfterSession` | src/main.rs:149-159 | the next invocation loads the last record written; after a write that failed part-way it finds a malformed file, and this invocation failed |
| `Session.Serve` | src/main.rs:56-168 | building the client, dispatching, releasing and draining do exactly what the connected part of the session specification says |
| `Session.Run` | src/main.rs:21-171 | the whole invocation's result, compact flag, effects, client requests, client release and final files match the session specification; only the config path's file can change, and none does when no client was built |

## Left out

- The websocket client, its handshake and authentication, and the tokio runtime. A client is a log of requests. Replies come from an input function, so the same request always gets the same reply.
- The event stream is a finite input sequence. For a subscription it stands for what arrives before the process is interrupted.
- JSON serialisation, pretty-printing and `tracing` logs. A printed line is the value and the compact flag it was printed with. Serialisation failures of `print` are not modelled.
- Only three replies are type-checked: the hotkey listing, the model listing and the tint result. A reply of the wrong shape to one of them gives an "unexpected response" error. Every other reply is printed without inspection.
- File-system and platform access:
  - The platform's config directory is an input.
  - A read failure is "config not found"; a JSON failure is "config malformed".
  - How a write turns out at each path is an input. `create_dir_all` failing and the write failing are one "persist failed" error. A write either is refused before the file is touched, or truncates the file and leaves a partial, unparsable record.
  - Error message texts, including the `current_exe` hint, are left out.
- `is_event_subscription` is a parameter of `Run`, because its definition is not part of this model.
- Durations are whole milliseconds. The conversions to floating-point seconds (`as_secs_f64`, `as_millis() as f64 / 1000.0`) are left out, and requests carry milliseconds. `f64` is `real`, and `base.value as f64` is the exact conversion of a byte.
- `parse_duration::parse` and `read_color::rgb_maybe_a` are not modelled. The colour reader is a function parameter of `ParseHexColor`.
- clap/structopt parsing and `conflicts_with` are not modelled. Commands are given already parsed.
- The fields of item load, unload and move: `ItemLoad`, `ItemUnload` and `ItemMove` carry their argument record unchanged. Only `unload_when_plugin_disconnects = false` and the one-item move list are modelled, because the argument records are not defined in `src/args.rs`.
- The pass-through commands (state, stats, folders, scene colours, face found, the list variants, parameter create/get/delete, model move, item list) appear only in the dispatch table, as one request plus printing the reply.
