/** The boundary with the remote application's API client: the requests the
    router builds, the few responses it looks inside, the pushed events, and the
    client itself, seen only as a log of the requests sent to it. */
module Api {
  import opened Common
  import opened Args

  datatype InjectMode = Add | Set

  datatype ParameterValue = ParameterValue(id: string, value: real, weight: Option<real>)

  datatype ColorTint = ColorTint(
    colorR: Byte, colorG: Byte, colorB: Byte, colorA: Byte,
    mixWithSceneLightingColor: Option<real>,
    jeb: bool)

  datatype ArtMeshMatcher = ArtMeshMatcher(
    tintAll: bool,
    artMeshNumber: seq<int>,
    nameExact: seq<string>,
    nameContains: seq<string>,
    tagExact: seq<string>,
    tagContains: seq<string>)

  /** One physics override; the default is the all-zero record with an empty id. */
  datatype PhysicsOverride = PhysicsOverride(id: string, value: real, setBaseValue: bool, overrideMs: nat)

  const DefaultPhysicsOverride: PhysicsOverride := PhysicsOverride("", 0.0, false, 0)

  /** The physics request: one override list per physics dimension. */
  datatype PhysicsRequest = PhysicsRequest(strengthOverrides: seq<PhysicsOverride>, windOverrides: seq<PhysicsOverride>)
  {
    /** The list that belongs to dimension `kind`. */
    function Overrides(kind: StrengthOrWind): seq<PhysicsOverride> {
      match kind
      case Strength => strengthOverrides
      case Wind => windOverrides
    }
  }

  const DefaultPhysicsRequest: PhysicsRequest := PhysicsRequest([], [])

  /** The device-output (NDI) configuration request. */
  datatype NdiConfig = NdiConfig(
    setNewConfig: bool,
    ndiActive: Option<bool>,
    useNdi5: Option<bool>,
    useCustomResolution: Option<bool>,
    customWidthNdi: Option<int>,
    customHeightNdi: Option<int>)

  const DefaultNdiConfig: NdiConfig := NdiConfig(false, None, None, None, None, None)

  datatype ItemAnimationControl = ItemAnimationControl(
    itemInstanceId: string,
    framerate: Option<real>,
    frame: Option<int>,
    brightness: Option<real>,
    opacity: Option<real>,
    setAutoStopFrames: bool,
    autoStopFrames: seq<int>,
    setAnimationPlayState: bool,
    animationPlayState: bool)

  datatype ItemToMove = ItemToMove(itemInstanceId: string, timeMs: nat, placement: PassThrough)

  datatype Request =
    | StatisticsRequest
    | ApiStateRequest
    | VtsFolderInfoRequest
    | SceneColorOverlayInfoRequest
    | FaceFoundRequest
    | ParameterCreationRequest(parameterName: string, explanation: Option<string>, min: real, max: real, defaultValue: real)
    | ParameterValueRequest(name: string)
    | Live2DParameterListRequest
    | InputParameterListRequest
    | ParameterDeletionRequest(parameterName: string)
    | InjectParameterDataRequest(faceFound: bool, mode: Option<InjectMode>, parameterValues: seq<ParameterValue>)
    | HotkeysInCurrentModelRequest(modelId: Option<string>, live2dItemFileName: Option<string>)
    | HotkeyTriggerRequest(hotkeyId: string, itemInstanceId: Option<string>)
    | ArtMeshListRequest
    | ColorTintRequest(colorTint: ColorTint, artMeshMatcher: ArtMeshMatcher)
    | ArtMeshSelectionRequest(textOverride: Option<string>, helpOverride: Option<string>,
                              requestedArtMeshCount: int, activeArtMeshes: seq<string>)
    | AvailableModelsRequest
    | CurrentModelRequest
    | ModelLoadRequest(loadModelId: string)
    | MoveModelRequest(timeMs: nat, valuesAreRelativeToModel: bool, positionX: Option<real>,
                       positionY: Option<real>, rotation: Option<real>, size: Option<real>)
    | ExpressionStateRequest(details: bool, expressionFile: Option<string>)
    | ExpressionActivationRequest(activationFile: string, active: bool)
    | NdiConfigRequest(ndi: NdiConfig)
    | GetCurrentModelPhysicsRequest
    | SetCurrentModelPhysicsRequest(physics: PhysicsRequest)
    | ItemListRequest(includeAvailableSpots: bool, includeItemInstancesInScene: bool, includeAvailableItemFiles: bool,
                      onlyItemsWithFileName: Option<string>, onlyItemsWithInstanceId: Option<string>)
    | ItemLoadRequest(load: PassThrough, unloadWhenPluginDisconnects: bool)
    | ItemUnloadRequest(unload: PassThrough)
    | ItemMoveRequest(itemsToMove: seq<ItemToMove>)
    | ItemAnimationControlRequest(control: ItemAnimationControl)
    | EventSubscriptionRequest(testMessageForEvent: string)

  datatype Hotkey = Hotkey(name: string, hotkeyId: string)

  datatype Model = Model(modelName: string, modelId: string)

  /** Responses: the three the router looks inside, and every other one, which
      is only printed. */
  datatype Response =
    | HotkeysInCurrentModelResponse(availableHotkeys: seq<Hotkey>)
    | AvailableModelsResponse(availableModels: seq<Model>)
    | ColorTintResponse(matchedArtMeshes: int)
    | OtherResponse(body: string)

  /** What one round trip yields: the response, or the client's failure. */
  datatype Reply = Answered(response: Response) | Failed(reason: string)

  /** An event the application pushes to a subscribed plugin. */
  datatype ApiEvent = ApiEvent(payload: string)

  /** One item of the client's event stream. */
  datatype ClientEvent =
    | NewAuthToken(token: string)
    | Api(event: ApiEvent)
    | OtherClientEvent(description: string)

  /** The RPC client. The remote side is the input `server`, which gives the
      reply to each request; the client records every request it sends. */
  class Client {
    const authToken: Option<string>
    const pluginName: string
    const pluginDeveloper: string
    const server: Request -> Reply
    var sent: seq<Request>
    var released: bool

    constructor (authToken: Option<string>, pluginName: string, pluginDeveloper: string, server: Request -> Reply)
      ensures this.authToken == authToken && this.pluginName == pluginName
      ensures this.pluginDeveloper == pluginDeveloper && this.server == server
      ensures sent == [] && !released
    {
      this.authToken := authToken;
      this.pluginName := pluginName;
      this.pluginDeveloper := pluginDeveloper;
      this.server := server;
      sent := [];
      released := false;
    }

    /** One round trip. */
    method Send(req: Request) returns (reply: Reply)
      modifies this`sent
      ensures sent == old(sent) + [req]
      ensures reply == server(req)
    {
      sent := sent + [req];
      reply := server(req);
    }

    /** Dropping the handle: the client starts its own shutdown. */
    method Release()
      modifies this`released
      ensures released
    {
      released := true;
    }
  }
}
