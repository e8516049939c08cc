/** The command router: for each command, the request(s) it sends, what it
    prints, whether it waits, and how it can fail. `Route*` functions state
    this for every command; the `Handle*` methods do it against a live client
    and are proved to do exactly what the functions say. */
module Router {
  import opened Common
  import opened Args
  import opened Api
  import opened Host

  /** What handling one command does: the requests sent, in order; the
      observable effects, in order; and how it ended. */
  datatype Trace = Trace(sent: seq<Request>, effects: seq<Effect>, result: Result<()>)

  /** Send `req` and print its reply; a failed round trip ends the command. */
  function Exchange(req: Request, server: Request -> Reply, compact: bool): Trace {
    match server(req)
    case Answered(resp) => Trace([req], [Printed(Json(ResponseValue(resp), compact))], Success(()))
    case Failed(e) => Trace([req], [], Failure(Transport(e)))
  }

  /** Send `req` and discard its reply; only a failure matters. */
  function Submit(req: Request, server: Request -> Reply): Trace {
    match server(req)
    case Answered(_) => Trace([req], [], Success(()))
    case Failed(e) => Trace([req], [], Failure(Transport(e)))
  }

  /** `t`, preceded by the lookup requests that were sent before it. */
  function After(lookups: seq<Request>, t: Trace): Trace {
    t.(sent := lookups + t.sent)
  }

  // ---------------------------------------------------------------------------
  // Name resolution

  /** `Iterator::find`: the position of the first element satisfying `p`. */
  function FindFirst<T>(xs: seq<T>, p: T -> bool): (r: Option<nat>)
    ensures r.Some? ==> r.value < |xs| && p(xs[r.value])
    ensures r.Some? ==> forall j | 0 <= j < r.value :: !p(xs[j])
    ensures r.None? ==> forall j | 0 <= j < |xs| :: !p(xs[j])
    decreases |xs|
  {
    if xs == [] then None
    else if p(xs[0]) then Some(0)
    else match FindFirst(xs[1..], p)
      case None => None
      case Some(i) => Some(i + 1)
  }

  /** The id of the first listed hotkey whose name is exactly `name`. */
  function HotkeyNamed(hotkeys: seq<Hotkey>, name: string): (r: Result<string>)
    ensures r.Success? <==> exists i | 0 <= i < |hotkeys| :: hotkeys[i].name == name
    ensures r.Success? ==> exists i | 0 <= i < |hotkeys| ::
              && hotkeys[i].name == name && r.value == hotkeys[i].hotkeyId
              && forall j | 0 <= j < i :: hotkeys[j].name != name
    ensures r.Failure? ==> r.error == NameNotFound(HotkeyResource, name)
  {
    match FindFirst(hotkeys, (h: Hotkey) => h.name == name)
    case Some(i) => Success(hotkeys[i].hotkeyId)
    case None => Failure(NameNotFound(HotkeyResource, name))
  }

  /** The id of the first listed model whose name is exactly `name`. */
  function ModelNamed(models: seq<Model>, name: string): (r: Result<string>)
    ensures r.Success? <==> exists i | 0 <= i < |models| :: models[i].modelName == name
    ensures r.Success? ==> exists i | 0 <= i < |models| ::
              && models[i].modelName == name && r.value == models[i].modelId
              && forall j | 0 <= j < i :: models[j].modelName != name
    ensures r.Failure? ==> r.error == NameNotFound(ModelResource, name)
  {
    match FindFirst(models, (m: Model) => m.modelName == name)
    case Some(i) => Success(models[i].modelId)
    case None => Failure(NameNotFound(ModelResource, name))
  }

  /** The outcome of resolving a selector: the listing requests it sent, and
      the id or the error. */
  datatype Selection = Selection(lookups: seq<Request>, target: Result<string>)

  /** The listing used to resolve a hotkey name: the current model's hotkeys. */
  const HotkeyListing: Request := HotkeysInCurrentModelRequest(None, None)

  /** An explicit id as is; otherwise the first hotkey of that name; otherwise an error. */
  function SelectHotkey(t: TriggerHotkey, server: Request -> Reply): (sel: Selection)
    ensures t.id.Some? ==> sel == Selection([], Success(t.id.value))
    ensures t.id.None? && t.name.None? ==> sel == Selection([], Failure(MissingSelector))
    ensures t.id.None? && t.name.Some? ==>
              && sel.lookups == [HotkeyListing]
              && (server(HotkeyListing).Failed? ==> sel.target == Failure(Transport(server(HotkeyListing).reason)))
              && (server(HotkeyListing).Answered? && server(HotkeyListing).response.HotkeysInCurrentModelResponse? ==>
                    sel.target == HotkeyNamed(server(HotkeyListing).response.availableHotkeys, t.name.value))
              && (server(HotkeyListing).Answered? && !server(HotkeyListing).response.HotkeysInCurrentModelResponse? ==>
                    sel.target == Failure(UnexpectedResponse))
  {
    if t.id.Some? then Selection([], Success(t.id.value))
    else if t.name.Some? then
      Selection([HotkeyListing],
        match server(HotkeyListing)
        case Failed(e) => Failure(Transport(e))
        case Answered(HotkeysInCurrentModelResponse(hotkeys)) => HotkeyNamed(hotkeys, t.name.value)
        case Answered(_) => Failure(UnexpectedResponse))
    else Selection([], Failure(MissingSelector))
  }

  /** An explicit id as is; otherwise the first available model of that name; otherwise an error. */
  function SelectModel(id: Option<string>, name: Option<string>, server: Request -> Reply): (sel: Selection)
    ensures id.Some? ==> sel == Selection([], Success(id.value))
    ensures id.None? && name.None? ==> sel == Selection([], Failure(MissingSelector))
    ensures id.None? && name.Some? ==>
              && sel.lookups == [AvailableModelsRequest]
              && (server(AvailableModelsRequest).Failed? ==>
                    sel.target == Failure(Transport(server(AvailableModelsRequest).reason)))
              && (server(AvailableModelsRequest).Answered? && server(AvailableModelsRequest).response.AvailableModelsResponse? ==>
                    sel.target == ModelNamed(server(AvailableModelsRequest).response.availableModels, name.value))
              && (server(AvailableModelsRequest).Answered? && !server(AvailableModelsRequest).response.AvailableModelsResponse? ==>
                    sel.target == Failure(UnexpectedResponse))
  {
    if id.Some? then Selection([], Success(id.value))
    else if name.Some? then
      Selection([AvailableModelsRequest],
        match server(AvailableModelsRequest)
        case Failed(e) => Failure(Transport(e))
        case Answered(AvailableModelsResponse(models)) => ModelNamed(models, name.value)
        case Answered(_) => Failure(UnexpectedResponse))
    else Selection([], Failure(MissingSelector))
  }

  // ---------------------------------------------------------------------------
  // Request construction

  /** Injection writes exactly the one given parameter value, adding to the
      current value when `add` is set and replacing it otherwise. */
  function InjectRequest(p: InjectParam): (req: Request)
    ensures req.InjectParameterDataRequest? && req.faceFound == p.faceFound
    ensures req.mode.Some? && (req.mode.value == Add <==> p.add)
    ensures req.parameterValues == [ParameterValue(p.id, p.value, p.weight)]
  {
    var mode := if p.add then Add else Set;
    InjectParameterDataRequest(p.faceFound, Some(mode), [ParameterValue(p.id, p.value, p.weight)])
  }

  /** Listing asks for the expression state; activation and deactivation
      differ only in the `active` flag. */
  function ExpressionRequest(cmd: ExpressionsCommand): (req: Request)
    ensures cmd.ExpressionList? ==> req == ExpressionStateRequest(cmd.details, cmd.file)
    ensures !cmd.ExpressionList? ==>
              && req.ExpressionActivationRequest?
              && req.activationFile == cmd.expression
              && (req.active <==> cmd.ExpressionActivate?)
  {
    match cmd
    case ExpressionList(details, file) => ExpressionStateRequest(details, file)
    case ExpressionActivate(file) => ExpressionActivationRequest(file, true)
    case ExpressionDeactivate(file) => ExpressionActivationRequest(file, false)
  }

  /** Reading the NDI configuration sends the default record with
      `setNewConfig` off; setting it sends the given values with it on. */
  function NdiRequest(cmd: NdiCommand): (n: NdiConfig)
    ensures n.setNewConfig <==> cmd.NdiSet?
    ensures cmd.NdiGetConfig? ==> n == DefaultNdiConfig
    ensures cmd.NdiSet? ==>
              && n.ndiActive == cmd.config.active
              && n.useNdi5 == cmd.config.useNdi5
              && n.useCustomResolution == cmd.config.useCustomResolution
              && n.customWidthNdi == cmd.config.width
              && n.customHeightNdi == cmd.config.height
  {
    match cmd
    case NdiGetConfig => DefaultNdiConfig.(setNewConfig := false)
    case NdiSet(v) => NdiConfig(true, v.active, v.useNdi5, v.useCustomResolution, v.width, v.height)
  }

  /** The change a request asks for in the play state: `None` leaves it alone. */
  function PlayStateChange(c: ItemAnimationControl): Option<bool> {
    if c.setAnimationPlayState then Some(c.animationPlayState) else None
  }

  /** The change a request asks for in the auto-stop frames: `None` leaves them alone. */
  function StopFramesChange(c: ItemAnimationControl): Option<seq<int>> {
    if c.setAutoStopFrames then Some(c.autoStopFrames) else None
  }

  /** `items animation`: `play` starts, `stop` stops (`play` wins if both are
      given), neither leaves the play state alone; `reset` clears the auto-stop
      frames, a non-empty frame list replaces them, neither leaves them alone.
      The other fields are copied. */
  function AnimationRequest(a: AnimationControl): (c: ItemAnimationControl)
    ensures PlayStateChange(c) == (if a.play then Some(true) else if a.stop then Some(false) else None)
    ensures StopFramesChange(c) ==
              (if a.resetStopFrames then Some([]) else if a.stopFrame != [] then Some(a.stopFrame) else None)
    ensures !c.setAnimationPlayState ==> c.animationPlayState
    ensures !c.setAutoStopFrames ==> c.autoStopFrames == []
    ensures && c.itemInstanceId == a.itemInstanceId && c.framerate == a.framerate && c.frame == a.frame
            && c.brightness == a.brightness && c.opacity == a.opacity
  {
    var animationPlayState := a.play || !a.stop;
    var setAutoStopFrames := a.stopFrame != [] || a.resetStopFrames;
    var autoStopFrames := if a.resetStopFrames then [] else a.stopFrame;
    ItemAnimationControl(a.itemInstanceId, a.framerate, a.frame, a.brightness, a.opacity,
                         setAutoStopFrames, autoStopFrames, a.play || a.stop, animationPlayState)
  }

  /** The physics request: one override, in the list of the command's kind,
      the other list empty. A base override sets `setBaseValue` and carries no
      group id; a multiplier override carries its group id and leaves
      `setBaseValue` off. */
  function PhysicsRequestFor(cmd: SetPhysicsCommand): (req: PhysicsRequest)
    ensures |req.Overrides(cmd.Kind())| == 1
    ensures forall k: StrengthOrWind | k != cmd.Kind() :: req.Overrides(k) == []
    ensures var o := req.Overrides(cmd.Kind())[0];
            && (o.setBaseValue <==> cmd.Base?)
            && o.id == (if cmd.Base? then "" else cmd.mult.id)
            && o.value == (if cmd.Base? then cmd.base.value as real else cmd.mult.value)
            && o.overrideMs == (if cmd.Base? then cmd.base.durationMs else cmd.mult.durationMs)
  {
    var o := match cmd
      case Base(b) => PhysicsOverride("", b.value as real, true, b.durationMs)
      case Multiplier(m) => PhysicsOverride(m.id, m.value, false, m.durationMs);
    match cmd.Kind()
    case Strength => PhysicsRequest([o], [])
    case Wind => PhysicsRequest([], [o])
  }

  /** `handle_physics_command` builds the request step by step: default
      records, the fields of the chosen override, then the one list. */
  method BuildPhysicsRequest(value: SetPhysicsCommand) returns (req: PhysicsRequest)
    ensures req == PhysicsRequestFor(value)
  {
    req := DefaultPhysicsRequest;
    var physics := DefaultPhysicsOverride;
    match value {
      case Base(base) =>
        physics := physics.(setBaseValue := true);
        physics := physics.(value := base.value as real);
        physics := physics.(overrideMs := base.durationMs);
      case Multiplier(mult) =>
        // the group id is moved out of the command into the override
        physics := physics.(id := mult.id);
        physics := physics.(value := mult.value);
        physics := physics.(overrideMs := mult.durationMs);
    }
    match value.Kind() {
      case Strength => req := req.(strengthOverrides := [physics]);
      case Wind => req := req.(windOverrides := [physics]);
    }
  }

  /** The tint request: the colour and the art-mesh matcher, copied. */
  function TintRequest(t: Tint): Request {
    ColorTintRequest(
      ColorTint(t.color.r, t.color.g, t.color.b, t.color.a, t.mixSceneLighting, t.rainbow),
      ArtMeshMatcher(t.all, t.artMeshNumber, t.nameExact, t.nameContains, t.tagExact, t.tagContains))
  }

  // ---------------------------------------------------------------------------
  // Routes

  function RouteParams(cmd: ParamsCommand, server: Request -> Reply, compact: bool): Trace {
    match cmd
    case ParamCreate(c) => Exchange(ParameterCreationRequest(c.name, c.explanation, c.min, c.max, c.default), server, compact)
    case ParamGet(name) => Exchange(ParameterValueRequest(name), server, compact)
    case ParamListLive2D => Exchange(Live2DParameterListRequest, server, compact)
    case ParamListInputs => Exchange(InputParameterListRequest, server, compact)
    case ParamDelete(name) => Exchange(ParameterDeletionRequest(name), server, compact)
    case ParamInject(p) => Exchange(InjectRequest(p), server, compact)
  }

  function RouteHotkeys(cmd: HotkeysCommand, server: Request -> Reply, compact: bool): Trace {
    match cmd
    case HotkeyList(modelId, live2dFile) => Exchange(HotkeysInCurrentModelRequest(modelId, live2dFile), server, compact)
    case HotkeyTrigger(t) =>
      var s := SelectHotkey(t, server);
      match s.target
      case Failure(e) => Trace(s.lookups, [], Failure(e))
      case Success(id) => After(s.lookups, Exchange(HotkeyTriggerRequest(id, t.item), server, compact))
  }

  /** A tint that matched at least one art mesh keeps the connection open for
      the requested duration, since the application undoes the tint when the
      plugin disconnects. */
  function RouteTint(t: Tint, server: Request -> Reply, compact: bool): (tr: Trace)
    ensures tr.sent == [TintRequest(t)]
    ensures tr.result.Success? <==> server(TintRequest(t)).Answered? && server(TintRequest(t)).response.ColorTintResponse?
    ensures server(TintRequest(t)).Failed? ==> tr.result == Failure(Transport(server(TintRequest(t)).reason))
    ensures tr.result.Failure? ==> tr.effects == []
    ensures tr.result.Success? ==>
              && 1 <= |tr.effects| <= 2
              && tr.effects[0] == Printed(Json(ResponseValue(server(TintRequest(t)).response), compact))
              && (|tr.effects| == 2 <==> server(TintRequest(t)).response.matchedArtMeshes > 0)
              && (|tr.effects| == 2 ==> tr.effects[1] == Slept(t.durationMs))
  {
    var req := TintRequest(t);
    match server(req)
    case Failed(e) => Trace([req], [], Failure(Transport(e)))
    case Answered(resp) =>
      if !resp.ColorTintResponse? then Trace([req], [], Failure(UnexpectedResponse))
      else
        var printed := [Printed(Json(ResponseValue(resp), compact))];
        Trace([req], if resp.matchedArtMeshes > 0 then printed + [Slept(t.durationMs)] else printed, Success(()))
  }

  function RouteArtmeshes(cmd: ArtmeshesCommand, server: Request -> Reply, compact: bool): Trace {
    match cmd
    case ArtmeshList => Exchange(ArtMeshListRequest, server, compact)
    case ArtmeshTint(t) => RouteTint(t, server, compact)
    case ArtmeshSelect(setText, setHelp, count, preselect) =>
      Exchange(ArtMeshSelectionRequest(setText, setHelp, count.GetOr(0), preselect), server, compact)
  }

  function RouteModels(cmd: ModelsCommand, server: Request -> Reply, compact: bool): Trace {
    match cmd
    case ModelList => Exchange(AvailableModelsRequest, server, compact)
    case ModelCurrent => Exchange(CurrentModelRequest, server, compact)
    case ModelLoad(id, name) =>
      var s := SelectModel(id, name, server);
      (match s.target
       case Failure(e) => Trace(s.lookups, [], Failure(e))
       case Success(modelId) => After(s.lookups, Exchange(ModelLoadRequest(modelId), server, compact)))
    case ModelMove(m) =>
      Exchange(MoveModelRequest(m.durationMs, m.relative, m.x, m.y, m.rotation, m.size), server, compact)
  }

  function RoutePhysics(cmd: PhysicsCommand, server: Request -> Reply, compact: bool): Trace {
    match cmd
    case PhysicsGet => Exchange(GetCurrentModelPhysicsRequest, server, compact)
    case PhysicsSet(value) => Exchange(SetCurrentModelPhysicsRequest(PhysicsRequestFor(value)), server, compact)
  }

  /** Item requests: loads are never tied to the plugin's connection, a move
      moves exactly one item, and the animation flags are collapsed as
      `AnimationRequest` says; listing and unloading copy their arguments. */
  function ItemsRequest(cmd: ItemsCommand): (req: Request)
    ensures cmd.ItemLoad? ==> req == ItemLoadRequest(cmd.load, false) && !req.unloadWhenPluginDisconnects
    ensures cmd.ItemUnload? ==> req == ItemUnloadRequest(cmd.unload)
    ensures cmd.ItemMove? ==> req.ItemMoveRequest? && req.itemsToMove == [ItemToMove(cmd.id, cmd.durationMs, cmd.placement)]
    ensures cmd.ItemAnimation? ==> req.ItemAnimationControlRequest? && req.control == AnimationRequest(cmd.animation)
    ensures cmd.ItemList? ==>
              req == ItemListRequest(cmd.spots, cmd.instances, cmd.files, cmd.withFileName, cmd.withInstanceId)
  {
    match cmd
    case ItemList(spots, instances, files, withFileName, withInstanceId) =>
      ItemListRequest(spots, instances, files, withFileName, withInstanceId)
    case ItemLoad(load) => ItemLoadRequest(load, false)
    case ItemUnload(unload) => ItemUnloadRequest(unload)
    case ItemMove(id, durationMs, placement) => ItemMoveRequest([ItemToMove(id, durationMs, placement)])
    case ItemAnimation(a) => ItemAnimationControlRequest(AnimationRequest(a))
  }

  function RouteConfig(cmd: ConfigCommand, conf: Config, path: Path, server: Request -> Reply, compact: bool): Trace {
    match cmd
    case Init(_) => Submit(StatisticsRequest, server)
    case Show => Trace([], [Printed(Json(ConfigValue(conf), compact))], Success(()))
    case PrintPath => Trace([], [Printed(DebugPath(path))], Success(()))
  }

  /** What dispatching `cmd` does, given the loaded config, the config path,
      the remote side's replies and the output flag. */
  function Route(cmd: Command, conf: Config, path: Path, server: Request -> Reply, compact: bool): (tr: Trace)
    ensures cmd == Configuration(Show) ==> tr == Trace([], [Printed(Json(ConfigValue(conf), compact))], Success(()))
    ensures cmd == Configuration(PrintPath) ==> tr == Trace([], [Printed(DebugPath(path))], Success(()))
    ensures cmd.Configuration? && cmd.config.Init? ==> tr.sent == [StatisticsRequest] && tr.effects == []
    ensures cmd.Events? ==> tr.sent == [EventSubscriptionRequest(cmd.events.message)] && tr.effects == []
    ensures (cmd.State? || cmd.Stats? || cmd.Folders? || cmd.SceneColors? || cmd.FaceFound?) ==>
              |tr.sent| == 1 && (tr.result.Success? <==> server(tr.sent[0]).Answered?)
              && (tr.result.Success? ==> tr.effects == [Printed(Json(ResponseValue(server(tr.sent[0]).response), compact))])
  {
    match cmd
    case Configuration(c) => RouteConfig(c, conf, path, server, compact)
    case State => Exchange(ApiStateRequest, server, compact)
    case Folders => Exchange(VtsFolderInfoRequest, server, compact)
    case Stats => Exchange(StatisticsRequest, server, compact)
    case SceneColors => Exchange(SceneColorOverlayInfoRequest, server, compact)
    case FaceFound => Exchange(FaceFoundRequest, server, compact)
    case Params(c) => RouteParams(c, server, compact)
    case Hotkeys(c) => RouteHotkeys(c, server, compact)
    case Artmeshes(c) => RouteArtmeshes(c, server, compact)
    case Models(c) => RouteModels(c, server, compact)
    case Expressions(c) => Exchange(ExpressionRequest(c), server, compact)
    case Ndi(c) => Exchange(NdiConfigRequest(NdiRequest(c)), server, compact)
    case Physics(c) => RoutePhysics(c, server, compact)
    case Items(c) => Exchange(ItemsRequest(c), server, compact)
    case Events(EventsTest(message)) => Submit(EventSubscriptionRequest(message), server)
  }

  // ---------------------------------------------------------------------------
  // Handlers

  method SendAndPrint(client: Client, host: Host, req: Request) returns (r: Result<()>)
    modifies client`sent, host`log
    ensures client.sent == old(client.sent) + Exchange(req, client.server, host.Compact()).sent
    ensures host.log == old(host.log) + Exchange(req, client.server, host.Compact()).effects
    ensures r == Exchange(req, client.server, host.Compact()).result
  {
    var reply := client.Send(req);
    match reply {
      case Answered(resp) =>
        host.Print(ResponseValue(resp));
        r := Success(());
      case Failed(e) =>
        r := Failure(Transport(e));
    }
  }

  method SendQuietly(client: Client, req: Request) returns (r: Result<()>)
    modifies client`sent
    ensures client.sent == old(client.sent) + Submit(req, client.server).sent
    ensures r == Submit(req, client.server).result
  {
    var reply := client.Send(req);
    r := if reply.Failed? then Failure(Transport(reply.reason)) else Success(());
  }

  method HandleParams(client: Client, host: Host, cmd: ParamsCommand) returns (r: Result<()>)
    modifies client`sent, host`log
    ensures client.sent == old(client.sent) + RouteParams(cmd, client.server, host.Compact()).sent
    ensures host.log == old(host.log) + RouteParams(cmd, client.server, host.Compact()).effects
    ensures r == RouteParams(cmd, client.server, host.Compact()).result
  {
    match cmd {
      case ParamCreate(c) =>
        r := SendAndPrint(client, host, ParameterCreationRequest(c.name, c.explanation, c.min, c.max, c.default));
      case ParamGet(name) =>
        r := SendAndPrint(client, host, ParameterValueRequest(name));
      case ParamListLive2D =>
        r := SendAndPrint(client, host, Live2DParameterListRequest);
      case ParamListInputs =>
        r := SendAndPrint(client, host, InputParameterListRequest);
      case ParamDelete(name) =>
        r := SendAndPrint(client, host, ParameterDeletionRequest(name));
      case ParamInject(p) =>
        r := SendAndPrint(client, host, InjectRequest(p));
    }
  }

  method HandleHotkeys(client: Client, host: Host, cmd: HotkeysCommand) returns (r: Result<()>)
    modifies client`sent, host`log
    ensures client.sent == old(client.sent) + RouteHotkeys(cmd, client.server, host.Compact()).sent
    ensures host.log == old(host.log) + RouteHotkeys(cmd, client.server, host.Compact()).effects
    ensures r == RouteHotkeys(cmd, client.server, host.Compact()).result
  {
    match cmd {
      case HotkeyList(modelId, live2dFile) =>
        r := SendAndPrint(client, host, HotkeysInCurrentModelRequest(modelId, live2dFile));
      case HotkeyTrigger(t) =>
        var hotkeyId: string;
        if t.id.Some? {
          hotkeyId := t.id.value;
        } else if t.name.Some? {
          var reply := client.Send(HotkeyListing);
          if reply.Failed? {
            return Failure(Transport(reply.reason));
          }
          if !reply.response.HotkeysInCurrentModelResponse? {
            return Failure(UnexpectedResponse);
          }
          var found := HotkeyNamed(reply.response.availableHotkeys, t.name.value);
          if found.Failure? {
            return Failure(found.error);
          }
          hotkeyId := found.value;
        } else {
          return Failure(MissingSelector);
        }
        r := SendAndPrint(client, host, HotkeyTriggerRequest(hotkeyId, t.item));
    }
  }

  method HandleArtmeshes(client: Client, host: Host, cmd: ArtmeshesCommand) returns (r: Result<()>)
    modifies client`sent, host`log
    ensures client.sent == old(client.sent) + RouteArtmeshes(cmd, client.server, host.Compact()).sent
    ensures host.log == old(host.log) + RouteArtmeshes(cmd, client.server, host.Compact()).effects
    ensures r == RouteArtmeshes(cmd, client.server, host.Compact()).result
  {
    match cmd {
      case ArtmeshList =>
        r := SendAndPrint(client, host, ArtMeshListRequest);
      case ArtmeshTint(t) =>
        var reply := client.Send(TintRequest(t));
        if reply.Failed? {
          return Failure(Transport(reply.reason));
        }
        var resp := reply.response;
        if !resp.ColorTintResponse? {
          return Failure(UnexpectedResponse);
        }
        host.Print(ResponseValue(resp));
        if resp.matchedArtMeshes > 0 {
          host.Sleep(t.durationMs);
        }
        r := Success(());
      case ArtmeshSelect(setText, setHelp, count, preselect) =>
        r := SendAndPrint(client, host, ArtMeshSelectionRequest(setText, setHelp, count.GetOr(0), preselect));
    }
  }

  method HandleModels(client: Client, host: Host, cmd: ModelsCommand) returns (r: Result<()>)
    modifies client`sent, host`log
    ensures client.sent == old(client.sent) + RouteModels(cmd, client.server, host.Compact()).sent
    ensures host.log == old(host.log) + RouteModels(cmd, client.server, host.Compact()).effects
    ensures r == RouteModels(cmd, client.server, host.Compact()).result
  {
    match cmd {
      case ModelList =>
        r := SendAndPrint(client, host, AvailableModelsRequest);
      case ModelCurrent =>
        r := SendAndPrint(client, host, CurrentModelRequest);
      case ModelLoad(id, name) =>
        var modelId: string;
        if id.Some? {
          modelId := id.value;
        } else if name.Some? {
          var reply := client.Send(AvailableModelsRequest);
          if reply.Failed? {
            return Failure(Transport(reply.reason));
          }
          if !reply.response.AvailableModelsResponse? {
            return Failure(UnexpectedResponse);
          }
          var found := ModelNamed(reply.response.availableModels, name.value);
          if found.Failure? {
            return Failure(found.error);
          }
          modelId := found.value;
        } else {
          return Failure(MissingSelector);
        }
        r := SendAndPrint(client, host, ModelLoadRequest(modelId));
      case ModelMove(m) =>
        r := SendAndPrint(client, host, MoveModelRequest(m.durationMs, m.relative, m.x, m.y, m.rotation, m.size));
    }
  }

  method HandlePhysics(client: Client, host: Host, cmd: PhysicsCommand) returns (r: Result<()>)
    modifies client`sent, host`log
    ensures client.sent == old(client.sent) + RoutePhysics(cmd, client.server, host.Compact()).sent
    ensures host.log == old(host.log) + RoutePhysics(cmd, client.server, host.Compact()).effects
    ensures r == RoutePhysics(cmd, client.server, host.Compact()).result
  {
    match cmd {
      case PhysicsGet =>
        r := SendAndPrint(client, host, GetCurrentModelPhysicsRequest);
      case PhysicsSet(value) =>
        var req := BuildPhysicsRequest(value);
        r := SendAndPrint(client, host, SetCurrentModelPhysicsRequest(req));
    }
  }

  /** `main`'s dispatch: the one command, against the live client. */
  method Dispatch(client: Client, host: Host, cmd: Command, conf: Config, path: Path) returns (r: Result<()>)
    modifies client`sent, host`log
    ensures client.sent == old(client.sent) + Route(cmd, conf, path, client.server, host.Compact()).sent
    ensures host.log == old(host.log) + Route(cmd, conf, path, client.server, host.Compact()).effects
    ensures r == Route(cmd, conf, path, client.server, host.Compact()).result
  {
    match cmd {
      case Configuration(c) =>
        match c {
          case Init(_) => r := SendQuietly(client, StatisticsRequest);
          case Show => host.Print(ConfigValue(conf)); r := Success(());
          case PrintPath => host.PrintPath(path); r := Success(());
        }
      case State => r := SendAndPrint(client, host, ApiStateRequest);
      case Folders => r := SendAndPrint(client, host, VtsFolderInfoRequest);
      case Stats => r := SendAndPrint(client, host, StatisticsRequest);
      case SceneColors => r := SendAndPrint(client, host, SceneColorOverlayInfoRequest);
      case FaceFound => r := SendAndPrint(client, host, FaceFoundRequest);
      case Params(c) => r := HandleParams(client, host, c);
      case Hotkeys(c) => r := HandleHotkeys(client, host, c);
      case Artmeshes(c) => r := HandleArtmeshes(client, host, c);
      case Models(c) => r := HandleModels(client, host, c);
      case Expressions(c) => r := SendAndPrint(client, host, ExpressionRequest(c));
      case Ndi(c) => r := SendAndPrint(client, host, NdiConfigRequest(NdiRequest(c)));
      case Physics(c) => r := HandlePhysics(client, host, c);
      case Items(c) => r := SendAndPrint(client, host, ItemsRequest(c));
      case Events(EventsTest(message)) => r := SendQuietly(client, EventSubscriptionRequest(message));
    }
  }

  // ---------------------------------------------------------------------------
  // Properties of the routes

  /** Resolving by name takes the first listed match, whichever later records
      share the name. */
  lemma {:induction false} FirstHotkeyWins(hotkeys: seq<Hotkey>, name: string, i: nat)
    requires i < |hotkeys| && hotkeys[i].name == name
    requires forall j | 0 <= j < i :: hotkeys[j].name != name
    ensures HotkeyNamed(hotkeys, name) == Success(hotkeys[i].hotkeyId)
  {
    var r := HotkeyNamed(hotkeys, name);
    assert r.Success?;
    var i' :| 0 <= i' < |hotkeys| && hotkeys[i'].name == name && r.value == hotkeys[i'].hotkeyId
               && forall j | 0 <= j < i' :: hotkeys[j].name != name;
    assert i' == i;
  }

  lemma {:induction false} FirstModelWins(models: seq<Model>, name: string, i: nat)
    requires i < |models| && models[i].modelName == name
    requires forall j | 0 <= j < i :: models[j].modelName != name
    ensures ModelNamed(models, name) == Success(models[i].modelId)
  {
    var r := ModelNamed(models, name);
    assert r.Success?;
    var i' :| 0 <= i' < |models| && models[i'].modelName == name && r.value == models[i'].modelId
               && forall j | 0 <= j < i' :: models[j].modelName != name;
    assert i' == i;
  }

  /** Triggering by id sends the trigger alone, with no listing first. */
  lemma TriggerById(t: TriggerHotkey, server: Request -> Reply, compact: bool)
    requires t.id.Some?
    ensures RouteHotkeys(HotkeyTrigger(t), server, compact) == Exchange(HotkeyTriggerRequest(t.id.value, t.item), server, compact)
    ensures RouteHotkeys(HotkeyTrigger(t), server, compact).sent == [HotkeyTriggerRequest(t.id.value, t.item)]
  {
  }

  /** Triggering by name lists the current model's hotkeys, then triggers the
      first one of that name. */
  lemma TriggerByName(t: TriggerHotkey, server: Request -> Reply, compact: bool, hotkeys: seq<Hotkey>, i: nat)
    requires t.id.None? && t.name.Some?
    requires server(HotkeyListing) == Answered(HotkeysInCurrentModelResponse(hotkeys))
    requires i < |hotkeys| && hotkeys[i].name == t.name.value
    requires forall j | 0 <= j < i :: hotkeys[j].name != t.name.value
    ensures var tr := RouteHotkeys(HotkeyTrigger(t), server, compact);
            && tr.sent == [HotkeyListing, HotkeyTriggerRequest(hotkeys[i].hotkeyId, t.item)]
            && tr.result == Exchange(HotkeyTriggerRequest(hotkeys[i].hotkeyId, t.item), server, compact).result
  {
    FirstHotkeyWins(hotkeys, t.name.value, i);
  }

  /** A name no listed hotkey has: the listing is the only request, nothing is
      printed, and the error names the hotkey. */
  lemma TriggerUnknownName(t: TriggerHotkey, server: Request -> Reply, compact: bool, hotkeys: seq<Hotkey>)
    requires t.id.None? && t.name.Some?
    requires server(HotkeyListing) == Answered(HotkeysInCurrentModelResponse(hotkeys))
    requires forall j | 0 <= j < |hotkeys| :: hotkeys[j].name != t.name.value
    ensures RouteHotkeys(HotkeyTrigger(t), server, compact)
            == Trace([HotkeyListing], [], Failure(NameNotFound(HotkeyResource, t.name.value)))
  {
  }

  /** Neither id nor name: nothing is sent. */
  lemma TriggerWithoutSelector(t: TriggerHotkey, server: Request -> Reply, compact: bool)
    requires t.id.None? && t.name.None?
    ensures RouteHotkeys(HotkeyTrigger(t), server, compact) == Trace([], [], Failure(MissingSelector))
  {
  }

  /** Loading by id sends the load alone. */
  lemma LoadModelById(id: string, name: Option<string>, server: Request -> Reply, compact: bool)
    ensures RouteModels(ModelLoad(Some(id), name), server, compact) == Exchange(ModelLoadRequest(id), server, compact)
  {
  }

  /** Loading by name lists the available models, then loads the first one of
      that name. */
  lemma LoadModelByName(name: string, server: Request -> Reply, compact: bool, models: seq<Model>, i: nat)
    requires server(AvailableModelsRequest) == Answered(AvailableModelsResponse(models))
    requires i < |models| && models[i].modelName == name
    requires forall j | 0 <= j < i :: models[j].modelName != name
    ensures var tr := RouteModels(ModelLoad(None, Some(name)), server, compact);
            && tr.sent == [AvailableModelsRequest, ModelLoadRequest(models[i].modelId)]
            && tr.result == Exchange(ModelLoadRequest(models[i].modelId), server, compact).result
  {
    FirstModelWins(models, name, i);
  }

  lemma LoadModelUnknownName(name: string, server: Request -> Reply, compact: bool, models: seq<Model>)
    requires server(AvailableModelsRequest) == Answered(AvailableModelsResponse(models))
    requires forall j | 0 <= j < |models| :: models[j].modelName != name
    ensures RouteModels(ModelLoad(None, Some(name)), server, compact)
            == Trace([AvailableModelsRequest], [], Failure(NameNotFound(ModelResource, name)))
  {
  }

  lemma LoadModelWithoutSelector(server: Request -> Reply, compact: bool)
    ensures RouteModels(ModelLoad(None, None), server, compact) == Trace([], [], Failure(MissingSelector))
  {
  }

  /** Two models named "Alice": the first one listed is loaded. */
  lemma DuplicateModelNameLoadsFirst(server: Request -> Reply, compact: bool)
    requires server(AvailableModelsRequest) == Answered(AvailableModelsResponse([Model("Alice", "a1"), Model("Alice", "a2")]))
    ensures RouteModels(ModelLoad(None, Some("Alice")), server, compact).sent
            == [AvailableModelsRequest, ModelLoadRequest("a1")]
  {
    LoadModelByName("Alice", server, compact, [Model("Alice", "a1"), Model("Alice", "a2")], 0);
  }

  /** A wind multiplier for group "g1" of 0.8 over one second puts exactly that
      override in the wind list and leaves the strength list empty. */
  lemma WindMultiplierRequest()
    ensures PhysicsRequestFor(Multiplier(SetMultiplierPhysicsConfig(Wind, 0.8, "g1", 1000)))
            == PhysicsRequest([], [PhysicsOverride("g1", 0.8, false, 1000)])
  {
  }

  /** The tint waits exactly when the reply reports at least one matched art
      mesh, and then for the requested duration, after printing the reply. */
  lemma TintWaitsOnlyOnMatch(t: Tint, server: Request -> Reply, compact: bool)
    ensures var tr := RouteTint(t, server, compact);
            && (Slept(t.durationMs) in tr.effects <==>
                  server(TintRequest(t)).Answered? && server(TintRequest(t)).response.ColorTintResponse?
                  && server(TintRequest(t)).response.matchedArtMeshes > 0)
            && (forall k | 0 <= k < |tr.effects| :: tr.effects[k].Slept? ==> k == 1 && tr.effects[0].Printed?)
  {
  }

  /** What every command does, whatever the replies: at most two requests,
      and two only when a listing resolves a name first; nothing observable on
      failure; at most one printed line, in the form `compact` selects (or the
      path's debug form); a wait only after a tint; and a command that
      succeeds has sent or printed something. */
  lemma {:induction false} RouteShape(cmd: Command, conf: Config, path: Path, server: Request -> Reply, compact: bool)
    ensures var tr := Route(cmd, conf, path, server, compact);
            && (tr.result.Success? ==> 1 <= |tr.sent| + |tr.effects|)
            && |tr.sent| <= 2
            && (|tr.sent| == 2 ==> tr.sent[0] == HotkeyListing || tr.sent[0] == AvailableModelsRequest)
            && (tr.result.Failure? ==> tr.effects == [])
            && |tr.effects| <= 2
            && (|tr.effects| == 2 ==> cmd.Artmeshes? && cmd.artmeshes.ArtmeshTint? && tr.effects[1] == Slept(cmd.artmeshes.tint.durationMs))
            && (tr.effects != [] ==> tr.effects[0].Printed?)
            && PrintedIn(tr.effects, compact)
  {
    match cmd {
      case Hotkeys(c) =>
        match c {
          case HotkeyList(_, _) =>
          case HotkeyTrigger(t) =>
        }
      case Models(c) =>
        match c {
          case ModelLoad(_, _) =>
          case _ =>
        }
      case Artmeshes(c) =>
      case _ =>
    }
  }
}
