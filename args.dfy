/** The parsed command line: the persisted connection record with its
    defaults, the closed union of commands `main` dispatches on, and the
    small value parsers the argument parser calls (physics kind, hex colour). */
module Args {
  import opened Common

  /** `u8`. */
  type Byte = x: int | 0 <= x < 256
  /** `u16`, the type of the port. */
  type Port = x: int | 0 <= x < 65536

  // ---------------------------------------------------------------------------
  // The connection record

  const DefaultHost: string := "localhost"
  const DefaultPort: Port := 8001
  const DefaultPluginName: string := "VTube Studio CLI"
  const DefaultPluginDeveloper: string := "Walfie"

  /** The connection and credential record that `init` creates and every other
      command loads. Only `token` is ever changed after creation. */
  datatype Config = Config(
    host: string,
    port: Port,
    token: Option<string>,
    pluginName: string,
    pluginDeveloper: string)

  /** The record `init` builds from its flags: a flag that was not given takes
      its declared default; the token has no default (it comes from `--token`
      or the token environment variable, or stays absent). */
  function InitConfig(host: Option<string>, port: Option<Port>, token: Option<string>,
                      pluginName: Option<string>, pluginDeveloper: Option<string>): Config
  {
    Config(host.GetOr(DefaultHost), port.GetOr(DefaultPort), token,
           pluginName.GetOr(DefaultPluginName), pluginDeveloper.GetOr(DefaultPluginDeveloper))
  }

  /** With no flags, `init` produces the documented defaults and whatever
      token was supplied; every given flag overrides its default. */
  lemma InitConfigDefaults(host: Option<string>, port: Option<Port>, token: Option<string>,
                           pluginName: Option<string>, pluginDeveloper: Option<string>)
    ensures InitConfig(None, None, token, None, None)
            == Config("localhost", 8001, token, "VTube Studio CLI", "Walfie")
    ensures var c := InitConfig(host, port, token, pluginName, pluginDeveloper);
            && (host.Some? ==> c.host == host.value)
            && (port.Some? ==> c.port == port.value)
            && (pluginName.Some? ==> c.pluginName == pluginName.value)
            && (pluginDeveloper.Some? ==> c.pluginDeveloper == pluginDeveloper.value)
            && c.token == token
  {
  }

  // ---------------------------------------------------------------------------
  // Physics kind

  datatype StrengthOrWind = Strength | Wind

  /** The accepted spellings, offered to the argument parser as the possible values. */
  function Variants(): seq<string> {
    ["strength", "wind"]
  }

  /** `StrengthOrWind::from_str`: exactly the two spellings are accepted. */
  function ParseStrengthOrWind(value: string): (r: Result<StrengthOrWind>)
    ensures r.Success? <==> value in Variants()
    ensures r.Success? ==> (r.value == Strength <==> value == "strength")
    ensures r.Failure? ==> r.error == UnknownStrengthOrWind(value)
  {
    if value == "strength" then Success(Strength)
    else if value == "wind" then Success(Wind)
    else Failure(UnknownStrengthOrWind(value))
  }

  /** Every advertised spelling parses, the spellings name distinct kinds, and
      every kind is reachable from one of them: `Variants` and the parser agree. */
  lemma VariantsRoundTrip()
    ensures forall v | v in Variants() :: ParseStrengthOrWind(v).Success?
    ensures ParseStrengthOrWind(Variants()[0]).value != ParseStrengthOrWind(Variants()[1]).value
    ensures forall k: StrengthOrWind :: exists i | 0 <= i < |Variants()| ::
              ParseStrengthOrWind(Variants()[i]) == Success(k)
  {
    forall k: StrengthOrWind
      ensures exists i | 0 <= i < |Variants()| :: ParseStrengthOrWind(Variants()[i]) == Success(k)
    {
      if k == Strength {
        assert ParseStrengthOrWind(Variants()[0]) == Success(k);
      } else {
        assert ParseStrengthOrWind(Variants()[1]) == Success(k);
      }
    }
  }

  // ---------------------------------------------------------------------------
  // Physics overrides

  /** `physics set base`: a base value 0..=255 held for `durationMs`. */
  datatype SetBasePhysicsConfig = SetBasePhysicsConfig(kind: StrengthOrWind, value: Byte, durationMs: nat)

  /** `physics set multiplier`: a multiplier for one physics group. */
  datatype SetMultiplierPhysicsConfig =
    SetMultiplierPhysicsConfig(kind: StrengthOrWind, value: real, id: string, durationMs: nat)

  datatype SetPhysicsCommand = Base(base: SetBasePhysicsConfig) | Multiplier(mult: SetMultiplierPhysicsConfig)
  {
    /** `SetPhysicsCommand::kind`: the physics dimension the command targets. */
    function Kind(): StrengthOrWind {
      match this
      case Base(conf) => conf.kind
      case Multiplier(conf) => conf.kind
    }
  }

  /** Whichever variant is built, `Kind` gives back the kind it was built with. */
  lemma KindOfEitherVariant(kind: StrengthOrWind, base: Byte, mult: real, id: string, durationMs: nat)
    ensures Base(SetBasePhysicsConfig(kind, base, durationMs)).Kind() == kind
    ensures Multiplier(SetMultiplierPhysicsConfig(kind, mult, id, durationMs)).Kind() == kind
  {
  }

  // ---------------------------------------------------------------------------
  // Hex colours

  datatype HexColor = HexColor(r: Byte, g: Byte, b: Byte, a: Byte)

  /** What the external hex-colour reader yields: three channels and an
      optional alpha. */
  datatype RgbMaybeA = RgbMaybeA(r: Byte, g: Byte, b: Byte, a: Option<Byte>)

  /** `str::trim_start_matches('#')`: drops every leading `#`. */
  function TrimStartHashes(s: string): (t: string)
    ensures |t| <= |s| && t == s[|s| - |t|..]
    ensures forall i | 0 <= i < |s| - |t| :: s[i] == '#'
    ensures t == [] || t[0] != '#'
    decreases |s|
  {
    if s != [] && s[0] == '#' then TrimStartHashes(s[1..]) else s
  }

  /** `k` copies of `#`. */
  function Hashes(k: nat): (s: string)
    ensures |s| == k
    ensures forall i | 0 <= i < k :: s[i] == '#'
  {
    if k == 0 then [] else ['#'] + Hashes(k - 1)
  }

  /** One leading `#` is invisible to the trimmed text. */
  lemma TrimOneHash(s: string)
    ensures TrimStartHashes(['#'] + s) == TrimStartHashes(s)
  {
    assert (['#'] + s)[1..] == s;
  }

  /** Any number of leading `#` is invisible to the trimmed text. */
  lemma {:induction false} TrimHashPrefix(k: nat, s: string)
    ensures TrimStartHashes(Hashes(k) + s) == TrimStartHashes(s)
  {
    if k == 0 {
      assert Hashes(0) + s == s;
    } else {
      var rest := Hashes(k - 1) + s;
      calc {
        TrimStartHashes(Hashes(k) + s);
        { assert Hashes(k) + s == ['#'] + rest; }
        TrimStartHashes(['#'] + rest);
        { TrimOneHash(rest); }
        TrimStartHashes(rest);
        { TrimHashPrefix(k - 1, s); }
        TrimStartHashes(s);
      }
    }
  }

  /** `HexColor::from_str`. `rgbMaybeA` stands for the external reader
      `read_color::rgb_maybe_a`, which is given the text after its leading `#`s.
      A rejection names the original argument; a missing alpha is opaque (255). */
  function ParseHexColor(value: string, rgbMaybeA: string -> Option<RgbMaybeA>): (r: Result<HexColor>)
    ensures r.Success? <==> rgbMaybeA(TrimStartHashes(value)).Some?
    ensures r.Failure? ==> r.error == InvalidHexColor(value)
    ensures r.Success? ==>
              var read := rgbMaybeA(TrimStartHashes(value)).value;
              && r.value.r == read.r && r.value.g == read.g && r.value.b == read.b
              && r.value.a == (if read.a.Some? then read.a.value else 255)
  {
    match rgbMaybeA(TrimStartHashes(value))
    case None => Failure(InvalidHexColor(value))
    case Some(RgbMaybeA(r, g, b, a)) => Success(HexColor(r, g, b, a.GetOr(255)))
  }

  /** Leading `#`s never change the colour parsed, nor whether one is parsed. */
  lemma {:induction false} HashPrefixIgnored(k: nat, s: string, rgbMaybeA: string -> Option<RgbMaybeA>)
    ensures ParseHexColor(Hashes(k) + s, rgbMaybeA).Success? == ParseHexColor(s, rgbMaybeA).Success?
    ensures ParseHexColor(s, rgbMaybeA).Success? ==>
              ParseHexColor(Hashes(k) + s, rgbMaybeA).value == ParseHexColor(s, rgbMaybeA).value
  {
    TrimHashPrefix(k, s);
  }

  // ---------------------------------------------------------------------------
  // The commands

  /** The fields of an argument record that the router copies into its request
      without looking at them. */
  datatype PassThrough = PassThrough(fields: string)

  datatype ConfigCommand = Init(conf: Config) | Show | PrintPath

  datatype CreateParam = CreateParam(name: string, default: real, min: real, max: real, explanation: Option<string>)

  datatype InjectParam = InjectParam(id: string, value: real, weight: Option<real>, faceFound: bool, add: bool)

  datatype ParamsCommand =
    | ParamGet(name: string)
    | ParamCreate(create: CreateParam)
    | ParamInject(inject: InjectParam)
    | ParamDelete(name: string)
    | ParamListInputs
    | ParamListLive2D

  /** Select a hotkey by `id` or by `name`; the argument parser lets at most one through. */
  datatype TriggerHotkey = TriggerHotkey(id: Option<string>, name: Option<string>, item: Option<string>)

  datatype HotkeysCommand =
    | HotkeyList(modelId: Option<string>, live2dFile: Option<string>)
    | HotkeyTrigger(trigger: TriggerHotkey)

  datatype Tint = Tint(
    rainbow: bool,
    mixSceneLighting: Option<real>,
    color: HexColor,
    all: bool,
    artMeshNumber: seq<int>,
    nameExact: seq<string>,
    nameContains: seq<string>,
    tagExact: seq<string>,
    tagContains: seq<string>,
    durationMs: nat)

  datatype ArtmeshesCommand =
    | ArtmeshList
    | ArtmeshTint(tint: Tint)
    | ArtmeshSelect(setText: Option<string>, setHelp: Option<string>, count: Option<int>, preselect: seq<string>)

  datatype MoveModel = MoveModel(durationMs: nat, relative: bool, x: Option<real>, y: Option<real>,
                                 rotation: Option<real>, size: Option<real>)

  datatype ModelsCommand =
    | ModelList
    | ModelCurrent
    | ModelLoad(id: Option<string>, name: Option<string>)
    | ModelMove(move: MoveModel)

  datatype ExpressionsCommand =
    | ExpressionList(details: bool, file: Option<string>)
    | ExpressionActivate(expression: string)
    | ExpressionDeactivate(expression: string)

  datatype NdiSetConfig = NdiSetConfig(active: Option<bool>, useNdi5: Option<bool>, useCustomResolution: Option<bool>,
                                       width: Option<int>, height: Option<int>)

  datatype NdiCommand = NdiGetConfig | NdiSet(config: NdiSetConfig)

  datatype PhysicsCommand = PhysicsGet | PhysicsSet(command: SetPhysicsCommand)

  /** `items animation`: `play`/`stop` and `stopFrame`/`resetStopFrames` are
      pairs the argument parser treats as alternatives. */
  datatype AnimationControl = AnimationControl(
    itemInstanceId: string,
    framerate: Option<real>,
    frame: Option<int>,
    brightness: Option<real>,
    opacity: Option<real>,
    stopFrame: seq<int>,
    resetStopFrames: bool,
    play: bool,
    stop: bool)

  datatype ItemsCommand =
    | ItemList(spots: bool, instances: bool, files: bool, withFileName: Option<string>, withInstanceId: Option<string>)
    | ItemLoad(load: PassThrough)
    | ItemUnload(unload: PassThrough)
    | ItemMove(id: string, durationMs: nat, placement: PassThrough)
    | ItemAnimation(animation: AnimationControl)

  datatype EventsCommand = EventsTest(message: string)

  /** The closed union of user intents; exactly one is processed per invocation. */
  datatype Command =
    | Configuration(config: ConfigCommand)
    | State
    | Stats
    | Folders
    | Params(params: ParamsCommand)
    | Hotkeys(hotkeys: HotkeysCommand)
    | Artmeshes(artmeshes: ArtmeshesCommand)
    | Models(models: ModelsCommand)
    | SceneColors
    | FaceFound
    | Expressions(expressions: ExpressionsCommand)
    | Ndi(ndi: NdiCommand)
    | Physics(physics: PhysicsCommand)
    | Items(items: ItemsCommand)
    | Events(events: EventsCommand)

  /** The whole command line. */
  datatype CliArgs = CliArgs(configFile: Option<Path>, compact: bool, command: Command)
}
