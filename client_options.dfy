/**
 * Client game options (`src/io/options/client.rs`): the option records,
 * the integer and text encodings of their enumerations, and the defaults.
 * A floating-point option is kept as its decimal text (what `to_string`
 * prints), since only that text is ever written out.
 */
module ClientOptions {
  import Text
  import opened Wrappers

  type U8 = x: nat | x < 0x100
  type U16 = x: nat | x < 0x1_0000
  type U32 = x: nat | x < 0x1_0000_0000
  type I16 = x: int | -0x8000 <= x < 0x8000
  /** The text `to_string` gives for an `f32`. */
  type FloatText = string

  datatype GraphicsMode = Fast | Fancy | Fabulous
  datatype ParticlesMode = All | Decreased | Minimal
  datatype Difficulty = Peaceful | Easy | Normal | Hard
  datatype ChunkUpdatesMode = Threaded | SemiBlocking | FullyBlocking
  datatype CloudRenderMode = Fancy | Off | Fast
  datatype ChatVisibility = Shown | CommandsOnly | Hidden
  datatype MainHand = Left | Right
  datatype AttackIndicatorMode = Off | Crosshair | Hotbar
  datatype NarratorMode = Off | All | Chat | System
  datatype TutorialStep = Movement | FindTree | PunchTree | OpenInventory | CraftPlanks | None
  datatype LogLevel = None | High | Medium | Low | Notification

  /** The variants of each enumeration in declaration order. */
  const GRAPHICS_MODES: seq<GraphicsMode> := [GraphicsMode.Fast, GraphicsMode.Fancy, Fabulous]
  const PARTICLES_MODES: seq<ParticlesMode> := [ParticlesMode.All, Decreased, Minimal]
  const DIFFICULTIES: seq<Difficulty> := [Peaceful, Easy, Normal, Hard]
  const CHUNK_UPDATES_MODES: seq<ChunkUpdatesMode> := [Threaded, SemiBlocking, FullyBlocking]
  const CHAT_VISIBILITIES: seq<ChatVisibility> := [Shown, CommandsOnly, Hidden]
  const ATTACK_INDICATOR_MODES: seq<AttackIndicatorMode> := [AttackIndicatorMode.Off, Crosshair, Hotbar]
  const NARRATOR_MODES: seq<NarratorMode> := [NarratorMode.Off, NarratorMode.All, Chat, System]
  const LOG_LEVELS: seq<LogLevel> := [LogLevel.None, High, Medium, Low, Notification]

  /** `ToInt` of each enumeration: the cast of a field-less enum, its declaration index. */
  function GraphicsModeToInt(m: GraphicsMode): int {
    match m
    case Fast => 0
    case Fancy => 1
    case Fabulous => 2
  }

  function ParticlesModeToInt(m: ParticlesMode): int {
    match m
    case All => 0
    case Decreased => 1
    case Minimal => 2
  }

  function DifficultyToInt(d: Difficulty): int {
    match d
    case Peaceful => 0
    case Easy => 1
    case Normal => 2
    case Hard => 3
  }

  function ChunkUpdatesModeToInt(m: ChunkUpdatesMode): int {
    match m
    case Threaded => 0
    case SemiBlocking => 1
    case FullyBlocking => 2
  }

  function ChatVisibilityToInt(v: ChatVisibility): int {
    match v
    case Shown => 0
    case CommandsOnly => 1
    case Hidden => 2
  }

  function AttackIndicatorModeToInt(m: AttackIndicatorMode): int {
    match m
    case Off => 0
    case Crosshair => 1
    case Hotbar => 2
  }

  function NarratorModeToInt(m: NarratorMode): int {
    match m
    case Off => 0
    case All => 1
    case Chat => 2
    case System => 3
  }

  function LogLevelToInt(l: LogLevel): int {
    match l
    case None => 0
    case High => 1
    case Medium => 2
    case Low => 3
    case Notification => 4
  }

  /** Every `ToInt` gives each variant its position in the declaration. */
  lemma ToIntIsDeclarationIndex()
    ensures forall i :: 0 <= i < |GRAPHICS_MODES| ==> GraphicsModeToInt(GRAPHICS_MODES[i]) == i
    ensures forall i :: 0 <= i < |PARTICLES_MODES| ==> ParticlesModeToInt(PARTICLES_MODES[i]) == i
    ensures forall i :: 0 <= i < |DIFFICULTIES| ==> DifficultyToInt(DIFFICULTIES[i]) == i
    ensures forall i :: 0 <= i < |CHUNK_UPDATES_MODES| ==> ChunkUpdatesModeToInt(CHUNK_UPDATES_MODES[i]) == i
    ensures forall i :: 0 <= i < |CHAT_VISIBILITIES| ==> ChatVisibilityToInt(CHAT_VISIBILITIES[i]) == i
    ensures forall i :: 0 <= i < |ATTACK_INDICATOR_MODES| ==> AttackIndicatorModeToInt(ATTACK_INDICATOR_MODES[i]) == i
    ensures forall i :: 0 <= i < |NARRATOR_MODES| ==> NarratorModeToInt(NARRATOR_MODES[i]) == i
    ensures forall i :: 0 <= i < |LOG_LEVELS| ==> LogLevelToInt(LOG_LEVELS[i]) == i
  {
  }

  /** The declaration lists hold every variant. */
  lemma DeclarationListsComplete(g: GraphicsMode, p: ParticlesMode, d: Difficulty, c: ChunkUpdatesMode,
                                 v: ChatVisibility, a: AttackIndicatorMode, n: NarratorMode, l: LogLevel)
    ensures g in GRAPHICS_MODES && p in PARTICLES_MODES && d in DIFFICULTIES && c in CHUNK_UPDATES_MODES
    ensures v in CHAT_VISIBILITIES && a in ATTACK_INDICATOR_MODES && n in NARRATOR_MODES && l in LOG_LEVELS
  {
  }

  /** `Display for CloudRenderMode`. */
  function CloudRenderModeText(m: CloudRenderMode): (s: string)
    ensures s == "true" <==> m == CloudRenderMode.Fancy
    ensures s == "false" <==> m == CloudRenderMode.Off
    ensures s == "fast" <==> m == CloudRenderMode.Fast
  {
    match m
    case Fancy => "true"
    case Off => "false"
    case Fast => "fast"
  }

  /** `Display for MainHand`. */
  function MainHandText(h: MainHand): (s: string)
    ensures s == "left" <==> h == Left
    ensures s == "right" <==> h == Right
  {
    match h
    case Left => "left"
    case Right => "right"
  }

  /** `Display for TutorialStep`: the variant name in snake case. */
  function TutorialStepText(t: TutorialStep): (s: string)
    ensures s == "none" <==> t == TutorialStep.None
  {
    match t
    case Movement => "movement"
    case FindTree => "find_tree"
    case PunchTree => "punch_tree"
    case OpenInventory => "open_inventory"
    case CraftPlanks => "craft_planks"
    case None => "none"
  }

  /** Each step's text is its variant name with `_` before each inner capital, lower-cased. */
  lemma TutorialStepSnakeCase()
    ensures TutorialStepText(Movement) == "movement"
    ensures TutorialStepText(FindTree) == "find_tree"
    ensures TutorialStepText(PunchTree) == "punch_tree"
    ensures TutorialStepText(OpenInventory) == "open_inventory"
    ensures TutorialStepText(CraftPlanks) == "craft_planks"
  {
  }

  /** The displayed texts tell the variants apart. */
  lemma DisplayInjective(a: TutorialStep, b: TutorialStep, c: CloudRenderMode, d: CloudRenderMode)
    ensures TutorialStepText(a) == TutorialStepText(b) ==> a == b
    ensures CloudRenderModeText(c) == CloudRenderModeText(d) ==> c == d
  {
  }

  datatype FullscreenResolution = FullscreenResolution(width: U32, height: U32, refreshRate: U32, colorBits: U32)

  datatype KeyOptions = KeyOptions(
    attack: string, use: string, forward: string, left: string, back: string, right: string,
    jump: string, sneak: string, sprint: string, drop: string, inventory: string, chat: string,
    playerlist: string, pickItem: string, command: string, socialInteractions: string,
    screenshot: string, togglePerspective: string, smoothCamera: string, fullscreen: string,
    spectatorOutlines: string, swapOffhand: string, saveToolbar: string, loadToolbar: string,
    advancements: string, hotbar1: string, hotbar2: string, hotbar3: string, hotbar4: string,
    hotbar5: string, hotbar6: string, hotbar7: string, hotbar8: string, hotbar9: string)

  datatype ControlOptions = ControlOptions(
    keys: KeyOptions, autoJump: bool, discreteMouseScroll: bool, invertMouseY: bool,
    enableTouchscreen: bool, toggleSprint: bool, toggleCrouch: bool,
    mouseSensitivity: FloatText, mouseWheelSensitivity: FloatText, rawMouseInput: bool)

  datatype ChatOptions = ChatOptions(
    autoCommandSuggestions: bool, enableColors: bool, enableLinks: bool, promptLinks: bool,
    forceUnicode: bool, visibility: ChatVisibility, opacity: FloatText, lineSpacing: FloatText,
    backgroundOpacity: FloatText, backgroundForChatOnly: bool, focusedHeight: FloatText,
    unfocusedHeight: FloatText, delay: FloatText, scale: FloatText, width: FloatText,
    narratorMode: NarratorMode)

  datatype VideoOptions = VideoOptions(
    vsync: bool, entityShadows: bool, fullscreen: bool, viewBobbing: bool,
    darkMojangBackground: bool, hideLightningFlashes: bool, fov: U8,
    screenEffectScale: FloatText, fovEffectScale: FloatText, darknessEffectScale: FloatText,
    brightness: FloatText, renderDistance: U8, simulationDistance: U8,
    entityDistanceScaling: FloatText, guiScale: U8, particles: ParticlesMode, maxFps: U8,
    graphicsMode: GraphicsMode, smoothLighting: bool, chunkUpdatesMode: ChunkUpdatesMode,
    biomeBlend: U8, clouds: CloudRenderMode, mipmapLevels: U8, windowWidth: U16,
    windowHeight: U16, attackIndicator: AttackIndicatorMode,
    fullscreenResolution: Option<FullscreenResolution>, allowBlockAlternatives: bool)

  datatype VolumeOptions = VolumeOptions(
    master: FloatText, music: FloatText, record: FloatText, weather: FloatText, block: FloatText,
    hostile: FloatText, neutral: FloatText, player: FloatText, ambient: FloatText, voice: FloatText)

  datatype SoundOptions = SoundOptions(
    volume: VolumeOptions, showSubtitles: bool, directionalAudio: bool, device: Option<string>)

  datatype SkinOptions = SkinOptions(
    cape: bool, jacket: bool, leftSleeve: bool, rightSleeve: bool, leftPants: bool,
    rightPants: bool, hat: bool)

  datatype ClientOptions = ClientOptions(
    dataVersion: I16, video: VideoOptions, control: ControlOptions, chat: ChatOptions,
    sound: SoundOptions, skin: SkinOptions, custom: map<string, string>,
    realmsNotifications: bool, reducedDebugInfo: bool, difficulty: Difficulty,
    resourcePacks: seq<string>, language: string, tutorialStep: TutorialStep,
    skipMultiplayerWarning: bool, skipRealms32BitWarning: bool, hideBundleTutorial: bool,
    joinedServer: bool, syncChunkWrites: bool, useNativeTransport: bool,
    heldItemTooltips: bool, advancedItemTooltips: bool, logLevel: LogLevel,
    hideMatchedNames: bool, pauseOnLostFocus: bool, mainHand: MainHand,
    hideServerAddress: bool, showAutosaveIndicator: bool, allowServerListing: bool)

  /** The build target, on which two defaults depend (`TARGET_64_BIT`, `cfg!(target_os = "windows")`). */
  datatype Platform = Platform(target64Bit: bool, windows: bool)

  function DefaultRenderDistance(p: Platform): U8 {
    if p.target64Bit then 12 else 8
  }

  function DefaultKeyOptions(): KeyOptions {
    KeyOptions(
      "key.mouse.left", "key.mouse.right", "key.keyboard.w", "key.keyboard.a", "key.keyboard.s",
      "key.keyboard.d", "key.keyboard.space", "key.keyboard.left.control", "key.keyboard.left.shift",
      "key.keyboard.q", "key.keyboard.e", "key.keyboard.t", "key.keyboard.tab", "key.mouse.middle",
      "key.keyboard.slash", "key.keyboard.p", "key.keyboard.f2", "key.keyboard.f5",
      "key.keyboard.unknown", "key.keyboard.f11", "key.keyboard.unknown", "key.keyboard.f",
      "key.keyboard.c", "key.keyboard.x", "key.keyboard.l", "key.keyboard.1", "key.keyboard.2",
      "key.keyboard.3", "key.keyboard.4", "key.keyboard.5", "key.keyboard.6", "key.keyboard.7",
      "key.keyboard.8", "key.keyboard.9")
  }

  function DefaultControlOptions(): ControlOptions {
    ControlOptions(DefaultKeyOptions(), true, false, false, false, false, false, "0.5", "1", true)
  }

  function DefaultChatOptions(): ChatOptions {
    ChatOptions(true, true, true, true, false, Shown, "1", "0", "0.5", true, "1", "0.4375", "0", "1", "1", NarratorMode.Off)
  }

  function DefaultVideoOptions(p: Platform): VideoOptions {
    VideoOptions(
      true, true, false, true, false, false, 0, "1", "1", "1", "0.5",
      DefaultRenderDistance(p), DefaultRenderDistance(p), "1", 0, ParticlesMode.All, 120,
      GraphicsMode.Fancy, true, Threaded, 2, CloudRenderMode.Fancy, 4, 0, 0, Crosshair, Option.None, true)
  }

  function DefaultVolumeOptions(): VolumeOptions {
    VolumeOptions("1", "1", "1", "1", "1", "1", "1", "1", "1", "1")
  }

  function DefaultSoundOptions(): SoundOptions {
    SoundOptions(DefaultVolumeOptions(), false, false, Option.None)
  }

  function DefaultSkinOptions(): SkinOptions {
    SkinOptions(true, true, true, true, true, true, true)
  }

  /** `ClientOptions::default`. */
  function DefaultClientOptions(p: Platform): ClientOptions {
    ClientOptions(
      3337, DefaultVideoOptions(p), DefaultControlOptions(), DefaultChatOptions(),
      DefaultSoundOptions(), DefaultSkinOptions(), map[], true, false, Normal, [], "en_us",
      TutorialStep.None, true, true, true, true, !p.windows, true, true, false, High, true,
      false, Right, false, true, true)
  }

  /** The defaults the options file relies on. */
  lemma DefaultValues(p: Platform)
    ensures DefaultClientOptions(p).video.simulationDistance == DefaultClientOptions(p).video.renderDistance
    ensures DefaultClientOptions(p).video.renderDistance == if p.target64Bit then 12 else 8
    ensures DefaultClientOptions(p).dataVersion == 3337
    ensures DefaultClientOptions(p).video.fov == 0 && DefaultClientOptions(p).video.guiScale == 0
    ensures DefaultClientOptions(p).video.maxFps == 120 && DefaultClientOptions(p).video.biomeBlend == 2
    ensures DefaultClientOptions(p).video.mipmapLevels == 4
    ensures DefaultClientOptions(p).custom == map[] && DefaultClientOptions(p).resourcePacks == []
    ensures DefaultClientOptions(p).language == "en_us"
    ensures DefaultClientOptions(p).syncChunkWrites <==> !p.windows
    ensures DefaultClientOptions(p).video.fullscreenResolution.None? && DefaultClientOptions(p).sound.device.None?
  {
  }
}
