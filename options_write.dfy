/**
 * The options file writer (`src/io/options/write.rs`). `write_keys` fills a
 * map key by key under version gates; it is split into eleven sections,
 * each a method proved equal to the map its lines add. The version tests
 * are inputs (`Gates`), since version ordering is not part of this model.
 */
module OptionsWrite {
  import opened Wrappers
  import Text
  import ClientOptions

  /** The results of the version tests at lines 40-59 of `write_keys`, one per boundary version. */
  datatype Gates = Gates(
    after12w50a: bool, after14w28a: bool, after17w06a: bool, after17w47a: bool,
    after18w15a: bool, after18w21a: bool, after1_13Pre2: bool, after1_15_2Pre1: bool,
    after1_16_4Rc1: bool, after21w13a: bool, after21w37a: bool, after21w38a: bool,
    after21w42a: bool, after1_18Pre2: bool, after1_18_2Pre1: bool, after22w11a: bool,
    after22w15a: bool, before15w31a: bool, before1_19_4: bool)

  /** Each pack name in double quotes followed by a comma, in order. */
  function QuotedList(packs: seq<string>): string
    decreases |packs|
  {
    if packs == [] then "" else QuotedList(packs[..|packs| - 1]) + "\"" + packs[|packs| - 1] + "\","
  }

  function ResourcePacksText(packs: seq<string>): string {
    "[" + QuotedList(packs) + "]"
  }

  /** `write_resource_packs`. */
  method WriteResourcePacks(packs: seq<string>) returns (s: string)
    ensures s == ResourcePacksText(packs)
  {
    var namesJoined := "";
    var i := 0;
    while i < |packs|
      invariant 0 <= i <= |packs|
      invariant namesJoined == QuotedList(packs[..i])
    {
      assert packs[..i + 1][..i] == packs[..i];
      namesJoined := namesJoined + "\"" + packs[i] + "\",";
      i := i + 1;
    }
    assert packs[..i] == packs;
    s := "[" + namesJoined + "]";
  }

  /** The list text of two lists joined is the two texts joined, so each pack adds its own `"name",`. */
  lemma {:induction false} QuotedListAppend(a: seq<string>, b: seq<string>)
    ensures QuotedList(a + b) == QuotedList(a) + QuotedList(b)
    decreases |b|
  {
    if b != [] {
      var b' := b[..|b| - 1];
      assert (a + b)[..|a + b| - 1] == a + b';
      assert (a + b)[|a + b| - 1] == b[|b| - 1];
      QuotedListAppend(a, b');
      var last := "\"" + b[|b| - 1] + "\",";
      calc {
        QuotedList(a + b);
        QuotedList(a + b') + last;
        (QuotedList(a) + QuotedList(b')) + last;
        QuotedList(a) + (QuotedList(b') + last);
        QuotedList(a) + QuotedList(b);
      }
    } else {
      assert a + b == a;
    }
  }

  /** An empty list is written `[]`, and each name is quoted and followed by a comma, the last one too. */
  lemma ResourcePacksShape(packs: seq<string>, name: string)
    ensures ResourcePacksText([]) == "[]"
    ensures ResourcePacksText(packs + [name]) == "[" + QuotedList(packs) + "\"" + name + "\"," + "]"
    ensures |ResourcePacksText(packs + [name])| == |ResourcePacksText(packs)| + |name| + 3
  {
    assert (packs + [name])[..|packs + [name]| - 1] == packs;
  }

  /** `write_fullscreen_resolution`. */
  function WriteFullscreenResolution(r: ClientOptions.FullscreenResolution): string {
    Text.NatToString(r.width) + "x" + Text.NatToString(r.height) + "@" +
    Text.NatToString(r.refreshRate) + ":" + Text.NatToString(r.colorBits)
  }

  predicate AllDigits(s: string) {
    forall i :: 0 <= i < |s| ==> Text.IsAsciiDigit(s[i])
  }

  /** A separator that occurs in neither left part splits two joined texts at the same place. */
  lemma SplitAtSeparator(a: string, b: string, a2: string, b2: string, sep: char)
    requires sep !in a && sep !in a2
    requires a + [sep] + b == a2 + [sep] + b2
    ensures a == a2 && b == b2
  {
    var s := a + [sep] + b;
    SeparatorNotEarlier(a, b, a2, b2, sep);
    SeparatorNotEarlier(a2, b2, a, b, sep);
    assert a == s[..|a|] == a2;
    assert b == s[|a| + 1..] == b2;
  }

  /** If the separator of the left split falls inside `a2`, `a2` contains it. */
  lemma SeparatorNotEarlier(a: string, b: string, a2: string, b2: string, sep: char)
    requires a + [sep] + b == a2 + [sep] + b2
    ensures |a| < |a2| ==> sep in a2
  {
    if |a| < |a2| {
      assert (a + [sep] + b)[|a|] == a2[|a|];
    }
  }

  lemma DigitsHaveNo(s: string, c: char)
    requires AllDigits(s) && !Text.IsAsciiDigit(c)
    ensures c !in s
  {
  }

  /** A number's digits followed by a non-digit separator can be read back, and so can what follows. */
  lemma NumberThenSeparator(n: nat, rest: string, n2: nat, rest2: string, sep: char)
    requires !Text.IsAsciiDigit(sep)
    requires Text.NatToString(n) + [sep] + rest == Text.NatToString(n2) + [sep] + rest2
    ensures n == n2 && rest == rest2
  {
    DigitsHaveNo(Text.NatToString(n), sep);
    DigitsHaveNo(Text.NatToString(n2), sep);
    SplitAtSeparator(Text.NatToString(n), rest, Text.NatToString(n2), rest2, sep);
    Text.DigitsOfNatToString(n);
    Text.DigitsOfNatToString(n2);
  }

  /** The resolution text as three separator splits. */
  lemma ResolutionParts(r: ClientOptions.FullscreenResolution)
    ensures WriteFullscreenResolution(r) ==
            Text.NatToString(r.width) + ['x'] + (Text.NatToString(r.height) + ['@'] +
            (Text.NatToString(r.refreshRate) + [':'] + Text.NatToString(r.colorBits)))
  {
  }

  /** The resolution text determines the resolution. */
  lemma FullscreenResolutionInjective(r: ClientOptions.FullscreenResolution, q: ClientOptions.FullscreenResolution)
    requires WriteFullscreenResolution(r) == WriteFullscreenResolution(q)
    ensures r == q
  {
    ResolutionParts(r);
    ResolutionParts(q);
    var tail := Text.NatToString(r.refreshRate) + [':'] + Text.NatToString(r.colorBits);
    var tail' := Text.NatToString(q.refreshRate) + [':'] + Text.NatToString(q.colorBits);
    NumberThenSeparator(r.width, Text.NatToString(r.height) + ['@'] + tail, q.width, Text.NatToString(q.height) + ['@'] + tail', 'x');
    NumberThenSeparator(r.height, tail, q.height, tail', '@');
    NumberThenSeparator(r.refreshRate, Text.NatToString(r.colorBits), q.refreshRate, Text.NatToString(q.colorBits), ':');
    Text.DigitsOfNatToString(r.colorBits);
    Text.DigitsOfNatToString(q.colorBits);
  }

  /** The destination of `write_key`. */
  class Writer {
    var written: string

    constructor()
      ensures written == ""
    {
      written := "";
    }
  }

  /** The line `write_key` emits. */
  function KeyLine(key: string, value: string): string {
    key + ":" + value + "\n"
  }

  /** `write_key`: one `key:value` line. */
  method WriteKey(key: string, value: string, writer: Writer)
    modifies writer
    ensures writer.written == old(writer.written) + KeyLine(key, value)
  {
    writer.written := writer.written + key + ":" + value + "\n";
  }

  /** A key without a colon can be read back from its line, and so can its value. */
  lemma KeyLineReadBack(key: string, value: string, key2: string, value2: string)
    requires ':' !in key && ':' !in key2
    requires KeyLine(key, value) == KeyLine(key2, value2)
    ensures key == key2 && value == value2
  {
    assert KeyLine(key, value) == key + [':'] + (value + "\n");
    assert KeyLine(key2, value2) == key2 + [':'] + (value2 + "\n");
    SplitAtSeparator(key, value + "\n", key2, value2 + "\n", ':');
    assert value == (value + "\n")[..|value|];
    assert value2 == (value2 + "\n")[..|value2|];
  }

  /** The map after lines 63-77 of `write_keys`, from the map `m` before them. */
  function BasicKeys(c: ClientOptions.ClientOptions, g: Gates, m: map<string, string>): map<string, string> {
    var m := m["autoJump" := Text.BoolToString(c.control.autoJump)];
    var m := if g.after17w47a then m["autoSuggestions" := Text.BoolToString(c.chat.autoCommandSuggestions)] else m;
    var m := m["chatColors" := Text.BoolToString(c.chat.enableColors)];
    var m := m["chatLinks" := Text.BoolToString(c.chat.enableLinks)];
    var m := m["chatLinksPrompt" := Text.BoolToString(c.chat.promptLinks)];
    var m := m["enableVsync" := Text.BoolToString(c.video.vsync)];
    var m := m["entityShadows" := Text.BoolToString(c.video.entityShadows)];
    var m := m["forceUnicodeFont" := Text.BoolToString(c.chat.forceUnicode)];
    var m := m["discrete_mouse_scroll" := Text.BoolToString(c.control.discreteMouseScroll)];
    var m := m["invertYMouse" := Text.BoolToString(c.control.invertMouseY)];
    var m := m["realmsNotifications" := Text.BoolToString(c.realmsNotifications)];
    var m := m["reducedDebugInfo" := Text.BoolToString(c.reducedDebugInfo)];
    var m := m["showSubtitles" := Text.BoolToString(c.sound.showSubtitles)];
    m
  }

  /** Lines 63-77 of `write_keys`. */
  method WriteBasic(c: ClientOptions.ClientOptions, g: Gates, out0: map<string, string>) returns (out: map<string, string>)
    ensures out == BasicKeys(c, g, out0)
  {
    out := out0;
    out := out["autoJump" := Text.BoolToString(c.control.autoJump)];
    if g.after17w47a {
      out := out["autoSuggestions" := Text.BoolToString(c.chat.autoCommandSuggestions)];
    }
    out := out["chatColors" := Text.BoolToString(c.chat.enableColors)];
    out := out["chatLinks" := Text.BoolToString(c.chat.enableLinks)];
    out := out["chatLinksPrompt" := Text.BoolToString(c.chat.promptLinks)];
    out := out["enableVsync" := Text.BoolToString(c.video.vsync)];
    out := out["entityShadows" := Text.BoolToString(c.video.entityShadows)];
    out := out["forceUnicodeFont" := Text.BoolToString(c.chat.forceUnicode)];
    out := out["discrete_mouse_scroll" := Text.BoolToString(c.control.discreteMouseScroll)];
    out := out["invertYMouse" := Text.BoolToString(c.control.invertMouseY)];
    out := out["realmsNotifications" := Text.BoolToString(c.realmsNotifications)];
    out := out["reducedDebugInfo" := Text.BoolToString(c.reducedDebugInfo)];
    out := out["showSubtitles" := Text.BoolToString(c.sound.showSubtitles)];
  }

  /** The map after lines 78-87 of `write_keys`, from the map `m` before them. */
  function VisualKeys(c: ClientOptions.ClientOptions, g: Gates, m: map<string, string>): map<string, string> {
    var m := if g.after22w11a then m["directionalAudio" := Text.BoolToString(c.sound.directionalAudio)] else m;
    var m := m["touchscreen" := Text.BoolToString(c.control.enableTouchscreen)];
    var m := m["bobView" := Text.BoolToString(c.video.viewBobbing)];
    var m := m["toggleCrouch" := Text.BoolToString(c.control.toggleCrouch)];
    var m := m["toggleSprint" := Text.BoolToString(c.control.toggleSprint)];
    var m := if g.after21w13a then m["darkMojangStudiosBackground" := Text.BoolToString(c.video.darkMojangBackground)] else m;
    m
  }

  /** Lines 78-87 of `write_keys`. */
  method WriteVisual(c: ClientOptions.ClientOptions, g: Gates, out0: map<string, string>) returns (out: map<string, string>)
    ensures out == VisualKeys(c, g, out0)
  {
    out := out0;
    if g.after22w11a {
      out := out["directionalAudio" := Text.BoolToString(c.sound.directionalAudio)];
    }
    out := out["touchscreen" := Text.BoolToString(c.control.enableTouchscreen)];
    out := out["bobView" := Text.BoolToString(c.video.viewBobbing)];
    out := out["toggleCrouch" := Text.BoolToString(c.control.toggleCrouch)];
    out := out["toggleSprint" := Text.BoolToString(c.control.toggleSprint)];
    if g.after21w13a {
      out := out["darkMojangStudiosBackground" := Text.BoolToString(c.video.darkMojangBackground)];
    }
  }

  /** The map after lines 88-101 of `write_keys`, from the map `m` before them. */
  function EffectsKeys(c: ClientOptions.ClientOptions, g: Gates, m: map<string, string>): map<string, string> {
    var m := if g.after21w37a then
      var m := m["hideLightningFlashes" := Text.BoolToString(c.video.hideLightningFlashes)]["prioritizeChunkUpdates" := Text.IntToString(ClientOptions.ChunkUpdatesModeToInt(c.video.chunkUpdatesMode))];
      if c.sound.device.Some? then m["soundDevice" := c.sound.device.value] else m
    else m;
    var m := m["mouseSensitivity" := c.control.mouseSensitivity];
    var m := m["fov" := Text.NatToString(c.video.fov)];
    var m := m["screenEffectScale" := c.video.screenEffectScale];
    var m := m["fovEffectScale" := c.video.fovEffectScale];
    var m := if g.after22w15a then m["darknessEffectScale" := c.video.darknessEffectScale] else m;
    m
  }

  /** Lines 88-101 of `write_keys`. */
  method WriteEffects(c: ClientOptions.ClientOptions, g: Gates, out0: map<string, string>) returns (out: map<string, string>)
    ensures out == EffectsKeys(c, g, out0)
  {
    out := out0;
    if g.after21w37a {
      out := out["hideLightningFlashes" := Text.BoolToString(c.video.hideLightningFlashes)];
      out := out["prioritizeChunkUpdates" := Text.IntToString(ClientOptions.ChunkUpdatesModeToInt(c.video.chunkUpdatesMode))];
      if c.sound.device.Some? {
        out := out["soundDevice" := c.sound.device.value];
      }
    }
    out := out["mouseSensitivity" := c.control.mouseSensitivity];
    out := out["fov" := Text.NatToString(c.video.fov)];
    out := out["screenEffectScale" := c.video.screenEffectScale];
    out := out["fovEffectScale" := c.video.fovEffectScale];
    if g.after22w15a {
      out := out["darknessEffectScale" := c.video.darknessEffectScale];
    }
  }

  /** The map after lines 102-120 of `write_keys`, from the map `m` before them. */
  function RenderingKeys(c: ClientOptions.ClientOptions, g: Gates, m: map<string, string>): map<string, string> {
    var m := m["gamma" := c.video.brightness];
    var m := m["renderDistance" := Text.NatToString(c.video.renderDistance)];
    var m := if g.after21w38a then m["simulationDistance" := Text.NatToString(c.video.simulationDistance)] else m;
    var m := m["entityDistanceScaling" := c.video.entityDistanceScaling];
    var m := m["guiScale" := Text.NatToString(c.video.guiScale)];
    var m := m["particles" := Text.IntToString(ClientOptions.ParticlesModeToInt(c.video.particles))];
    var m := m["maxFps" := Text.NatToString(c.video.maxFps)];
    var m := m["difficulty" := Text.IntToString(ClientOptions.DifficultyToInt(c.difficulty))];
    var m := m["graphicsMode" := Text.IntToString(ClientOptions.GraphicsModeToInt(c.video.graphicsMode))];
    var m := m["ao" := Text.BoolToString(c.video.smoothLighting)];
    var m := if g.after18w15a then m["biomeBlendRadius" := Text.NatToString(c.video.biomeBlend)] else m;
    var m := m["renderClouds" := ClientOptions.CloudRenderModeText(c.video.clouds)];
    var m := m["resourcePacks" := ResourcePacksText(c.resourcePacks)];
    var m := m["incompatibleResourcePacks" := "[]"];
    var m := m["lang" := c.language];
    m
  }

  /** Lines 102-120 of `write_keys`. */
  method WriteRendering(c: ClientOptions.ClientOptions, g: Gates, out0: map<string, string>) returns (out: map<string, string>)
    ensures out == RenderingKeys(c, g, out0)
  {
    out := out0;
    out := out["gamma" := c.video.brightness];
    out := out["renderDistance" := Text.NatToString(c.video.renderDistance)];
    if g.after21w38a {
      out := out["simulationDistance" := Text.NatToString(c.video.simulationDistance)];
    }
    out := out["entityDistanceScaling" := c.video.entityDistanceScaling];
    out := out["guiScale" := Text.NatToString(c.video.guiScale)];
    out := out["particles" := Text.IntToString(ClientOptions.ParticlesModeToInt(c.video.particles))];
    out := out["maxFps" := Text.NatToString(c.video.maxFps)];
    out := out["difficulty" := Text.IntToString(ClientOptions.DifficultyToInt(c.difficulty))];
    out := out["graphicsMode" := Text.IntToString(ClientOptions.GraphicsModeToInt(c.video.graphicsMode))];
    out := out["ao" := Text.BoolToString(c.video.smoothLighting)];
    if g.after18w15a {
      out := out["biomeBlendRadius" := Text.NatToString(c.video.biomeBlend)];
    }
    out := out["renderClouds" := ClientOptions.CloudRenderModeText(c.video.clouds)];
    var packs := WriteResourcePacks(c.resourcePacks);
    out := out["resourcePacks" := packs];
    out := out["incompatibleResourcePacks" := "[]"];
    out := out["lang" := c.language];
  }

  /** The map after lines 121-140 of `write_keys`, from the map `m` before them. */
  function ChatKeys(c: ClientOptions.ClientOptions, g: Gates, m: map<string, string>): map<string, string> {
    var m := m["chatVisibility" := Text.IntToString(ClientOptions.ChatVisibilityToInt(c.chat.visibility))];
    var m := m["chatOpacity" := c.chat.opacity];
    var m := m["chatLineSpacing" := c.chat.lineSpacing];
    var m := m["textBackgroundOpacity" := c.chat.backgroundOpacity];
    var m := m["backgroundForChatOnly" := Text.BoolToString(c.chat.backgroundForChatOnly)];
    var m := m["hideServerAddress" := Text.BoolToString(c.hideServerAddress)];
    var m := m["advancedItemTooltips" := Text.BoolToString(c.advancedItemTooltips)];
    var m := m["pauseOnLostFocus" := Text.BoolToString(c.pauseOnLostFocus)];
    var m := m["overrideWidth" := Text.NatToString(c.video.windowWidth)];
    var m := m["overrideHeight" := Text.NatToString(c.video.windowHeight)];
    var m := if g.after12w50a && g.before1_19_4 then m["heldItemTooltips" := Text.BoolToString(c.heldItemTooltips)] else m;
    var m := m["chatHeightFocused" := c.chat.focusedHeight];
    var m := m["chatDelay" := c.chat.delay];
    var m := m["chatHeightUnfocused" := c.chat.unfocusedHeight];
    var m := m["chatScale" := c.chat.scale];
    var m := m["chatWidth" := c.chat.width];
    var m := m["mipmapLevels" := Text.NatToString(c.video.mipmapLevels)];
    var m := m["useNativeTransport" := Text.BoolToString(c.useNativeTransport)];
    m
  }

  /** Lines 121-140 of `write_keys`. */
  method WriteChat(c: ClientOptions.ClientOptions, g: Gates, out0: map<string, string>) returns (out: map<string, string>)
    ensures out == ChatKeys(c, g, out0)
  {
    out := out0;
    out := out["chatVisibility" := Text.IntToString(ClientOptions.ChatVisibilityToInt(c.chat.visibility))];
    out := out["chatOpacity" := c.chat.opacity];
    out := out["chatLineSpacing" := c.chat.lineSpacing];
    out := out["textBackgroundOpacity" := c.chat.backgroundOpacity];
    out := out["backgroundForChatOnly" := Text.BoolToString(c.chat.backgroundForChatOnly)];
    out := out["hideServerAddress" := Text.BoolToString(c.hideServerAddress)];
    out := out["advancedItemTooltips" := Text.BoolToString(c.advancedItemTooltips)];
    out := out["pauseOnLostFocus" := Text.BoolToString(c.pauseOnLostFocus)];
    out := out["overrideWidth" := Text.NatToString(c.video.windowWidth)];
    out := out["overrideHeight" := Text.NatToString(c.video.windowHeight)];
    if g.after12w50a && g.before1_19_4 {
      out := out["heldItemTooltips" := Text.BoolToString(c.heldItemTooltips)];
    }
    out := out["chatHeightFocused" := c.chat.focusedHeight];
    out := out["chatDelay" := c.chat.delay];
    out := out["chatHeightUnfocused" := c.chat.unfocusedHeight];
    out := out["chatScale" := c.chat.scale];
    out := out["chatWidth" := c.chat.width];
    out := out["mipmapLevels" := Text.NatToString(c.video.mipmapLevels)];
    out := out["useNativeTransport" := Text.BoolToString(c.useNativeTransport)];
  }

  /** The map after lines 141-152 of `write_keys`, from the map `m` before them. */
  function InterfaceKeys(c: ClientOptions.ClientOptions, g: Gates, m: map<string, string>): map<string, string> {
    var m := m["mainHand" := ClientOptions.MainHandText(c.mainHand)];
    var m := if g.after17w06a then m
      ["narrator" := Text.IntToString(ClientOptions.NarratorModeToInt(c.chat.narratorMode))]
      ["tutorialStep" := ClientOptions.TutorialStepText(c.tutorialStep)]
    else m;
    var m := if g.after18w21a then m["mouseWheelSensitivity" := c.control.mouseWheelSensitivity] else m;
    var m := m["rawMouseInput" := Text.BoolToString(c.control.rawMouseInput)];
    var m := if g.after1_13Pre2 then m["glDebugVerbosity" := Text.IntToString(ClientOptions.LogLevelToInt(c.logLevel))] else m;
    m
  }

  /** Lines 141-152 of `write_keys`. */
  method WriteInterface(c: ClientOptions.ClientOptions, g: Gates, out0: map<string, string>) returns (out: map<string, string>)
    ensures out == InterfaceKeys(c, g, out0)
  {
    out := out0;
    out := out["mainHand" := ClientOptions.MainHandText(c.mainHand)];
    if g.after17w06a {
      out := out["narrator" := Text.IntToString(ClientOptions.NarratorModeToInt(c.chat.narratorMode))];
      out := out["tutorialStep" := ClientOptions.TutorialStepText(c.tutorialStep)];
    }
    if g.after18w21a {
      out := out["mouseWheelSensitivity" := c.control.mouseWheelSensitivity];
    }
    out := out["rawMouseInput" := Text.BoolToString(c.control.rawMouseInput)];
    if g.after1_13Pre2 {
      out := out["glDebugVerbosity" := Text.IntToString(ClientOptions.LogLevelToInt(c.logLevel))];
    }
  }

  /** The map after lines 153-162 of `write_keys`, from the map `m` before them. */
  function WarningsKeys(c: ClientOptions.ClientOptions, g: Gates, m: map<string, string>): map<string, string> {
    var m := if g.after1_15_2Pre1 then m["skipMultiplayerWarning" := Text.BoolToString(c.skipMultiplayerWarning)] else m;
    var m := if g.after1_18_2Pre1 then m["skipRealms32bitWarning" := Text.BoolToString(c.skipRealms32BitWarning)] else m;
    var m := if g.after1_16_4Rc1 then m
      ["hideMatchedNames" := Text.BoolToString(c.hideMatchedNames)]
      ["joinedFirstServer" := Text.BoolToString(c.joinedServer)]
    else m;
    m
  }

  /** Lines 153-162 of `write_keys`. */
  method WriteWarnings(c: ClientOptions.ClientOptions, g: Gates, out0: map<string, string>) returns (out: map<string, string>)
    ensures out == WarningsKeys(c, g, out0)
  {
    out := out0;
    if g.after1_15_2Pre1 {
      out := out["skipMultiplayerWarning" := Text.BoolToString(c.skipMultiplayerWarning)];
    }
    if g.after1_18_2Pre1 {
      out := out["skipRealms32bitWarning" := Text.BoolToString(c.skipRealms32BitWarning)];
    }
    if g.after1_16_4Rc1 {
      out := out["hideMatchedNames" := Text.BoolToString(c.hideMatchedNames)];
      out := out["joinedFirstServer" := Text.BoolToString(c.joinedServer)];
    }
  }

  /** The map after lines 163-170 of `write_keys`, from the map `m` before them. */
  function WorldKeys(c: ClientOptions.ClientOptions, g: Gates, m: map<string, string>): map<string, string> {
    var m := m["hideBundleTutorial" := Text.BoolToString(c.hideBundleTutorial)];
    var m := m["syncChunkWrites" := Text.BoolToString(c.syncChunkWrites)];
    var m := if g.after21w42a then m["showAutosaveIndicator" := Text.BoolToString(c.showAutosaveIndicator)] else m;
    var m := if g.after1_18Pre2 then m["allowServerListing" := Text.BoolToString(c.allowServerListing)] else m;
    m
  }

  /** Lines 163-170 of `write_keys`. */
  method WriteWorld(c: ClientOptions.ClientOptions, g: Gates, out0: map<string, string>) returns (out: map<string, string>)
    ensures out == WorldKeys(c, g, out0)
  {
    out := out0;
    out := out["hideBundleTutorial" := Text.BoolToString(c.hideBundleTutorial)];
    out := out["syncChunkWrites" := Text.BoolToString(c.syncChunkWrites)];
    if g.after21w42a {
      out := out["showAutosaveIndicator" := Text.BoolToString(c.showAutosaveIndicator)];
    }
    if g.after1_18Pre2 {
      out := out["allowServerListing" := Text.BoolToString(c.allowServerListing)];
    }
  }

  /** The map after lines 172-193 of `write_keys`, from the map `m` before them. */
  function KeyBindsKeys(c: ClientOptions.ClientOptions, g: Gates, m: map<string, string>): map<string, string> {
    var m := m["key_key.attack" := c.control.keys.attack];
    var m := m["key_key.use" := c.control.keys.use];
    var m := m["key_key.forward" := c.control.keys.forward];
    var m := m["key_key.left" := c.control.keys.left];
    var m := m["key_key.back" := c.control.keys.back];
    var m := m["key_key.right" := c.control.keys.right];
    var m := m["key_key.jump" := c.control.keys.jump];
    var m := m["key_key.sneak" := c.control.keys.sneak];
    var m := m["key_key.sprint" := c.control.keys.sprint];
    var m := m["key_key.drop" := c.control.keys.drop];
    var m := m["key_key.inventory" := c.control.keys.inventory];
    var m := m["key_key.chat" := c.control.keys.chat];
    var m := m["key_key.playerlist" := c.control.keys.playerlist];
    var m := m["key_key.pickItem" := c.control.keys.pickItem];
    var m := m["key_key.command" := c.control.keys.command];
    var m := m["key_key.socialInteractions" := c.control.keys.socialInteractions];
    var m := m["key_key.screenshot" := c.control.keys.screenshot];
    var m := m["key_key.togglePerspective" := c.control.keys.togglePerspective];
    var m := m["key_key.smoothCamera" := c.control.keys.smoothCamera];
    var m := m["key_key.fullscreen" := c.control.keys.fullscreen];
    var m := m["key_key.spectatorOutlines" := c.control.keys.spectatorOutlines];
    var m := m["key_key.swapOffhand" := c.control.keys.swapOffhand];
    m
  }

  /** Lines 172-193 of `write_keys`. */
  method WriteKeyBinds(c: ClientOptions.ClientOptions, g: Gates, out0: map<string, string>) returns (out: map<string, string>)
    ensures out == KeyBindsKeys(c, g, out0)
  {
    out := out0;
    out := out["key_key.attack" := c.control.keys.attack];
    out := out["key_key.use" := c.control.keys.use];
    out := out["key_key.forward" := c.control.keys.forward];
    out := out["key_key.left" := c.control.keys.left];
    out := out["key_key.back" := c.control.keys.back];
    out := out["key_key.right" := c.control.keys.right];
    out := out["key_key.jump" := c.control.keys.jump];
    out := out["key_key.sneak" := c.control.keys.sneak];
    out := out["key_key.sprint" := c.control.keys.sprint];
    out := out["key_key.drop" := c.control.keys.drop];
    out := out["key_key.inventory" := c.control.keys.inventory];
    out := out["key_key.chat" := c.control.keys.chat];
    out := out["key_key.playerlist" := c.control.keys.playerlist];
    out := out["key_key.pickItem" := c.control.keys.pickItem];
    out := out["key_key.command" := c.control.keys.command];
    out := out["key_key.socialInteractions" := c.control.keys.socialInteractions];
    out := out["key_key.screenshot" := c.control.keys.screenshot];
    out := out["key_key.togglePerspective" := c.control.keys.togglePerspective];
    out := out["key_key.smoothCamera" := c.control.keys.smoothCamera];
    out := out["key_key.fullscreen" := c.control.keys.fullscreen];
    out := out["key_key.spectatorOutlines" := c.control.keys.spectatorOutlines];
    out := out["key_key.swapOffhand" := c.control.keys.swapOffhand];
  }

  /** The map after lines 194-207 of `write_keys`, from the map `m` before them. */
  function ToolbarAndHotbarKeys(c: ClientOptions.ClientOptions, g: Gates, m: map<string, string>): map<string, string> {
    var m := if g.after17w06a then m
      ["key_key.saveToolbarActivator" := c.control.keys.saveToolbar]
      ["key_key.loadToolbarActivator" := c.control.keys.loadToolbar]
      ["key_key.advancements" := c.control.keys.advancements]
    else m;
    var m := m["key_key.hotbar.1" := c.control.keys.hotbar1];
    var m := m["key_key.hotbar.2" := c.control.keys.hotbar2];
    var m := m["key_key.hotbar.3" := c.control.keys.hotbar3];
    var m := m["key_key.hotbar.4" := c.control.keys.hotbar4];
    var m := m["key_key.hotbar.5" := c.control.keys.hotbar5];
    var m := m["key_key.hotbar.6" := c.control.keys.hotbar6];
    var m := m["key_key.hotbar.7" := c.control.keys.hotbar7];
    var m := m["key_key.hotbar.8" := c.control.keys.hotbar8];
    var m := m["key_key.hotbar.9" := c.control.keys.hotbar9];
    m
  }

  /** Lines 194-207 of `write_keys`. */
  method WriteToolbarAndHotbar(c: ClientOptions.ClientOptions, g: Gates, out0: map<string, string>) returns (out: map<string, string>)
    ensures out == ToolbarAndHotbarKeys(c, g, out0)
  {
    out := out0;
    if g.after17w06a {
      out := out["key_key.saveToolbarActivator" := c.control.keys.saveToolbar];
      out := out["key_key.loadToolbarActivator" := c.control.keys.loadToolbar];
      out := out["key_key.advancements" := c.control.keys.advancements];
    }
    out := out["key_key.hotbar.1" := c.control.keys.hotbar1];
    out := out["key_key.hotbar.2" := c.control.keys.hotbar2];
    out := out["key_key.hotbar.3" := c.control.keys.hotbar3];
    out := out["key_key.hotbar.4" := c.control.keys.hotbar4];
    out := out["key_key.hotbar.5" := c.control.keys.hotbar5];
    out := out["key_key.hotbar.6" := c.control.keys.hotbar6];
    out := out["key_key.hotbar.7" := c.control.keys.hotbar7];
    out := out["key_key.hotbar.8" := c.control.keys.hotbar8];
    out := out["key_key.hotbar.9" := c.control.keys.hotbar9];
  }

  /** The map after lines 209-233 of `write_keys`, from the map `m` before them. */
  function VolumeAndSkinKeys(c: ClientOptions.ClientOptions, g: Gates, m: map<string, string>): map<string, string> {
    var m := m["soundCategory_master" := c.sound.volume.master];
    var m := m["soundCategory_music" := c.sound.volume.music];
    var m := m["soundCategory_record" := c.sound.volume.record];
    var m := m["soundCategory_weather" := c.sound.volume.weather];
    var m := m["soundCategory_block" := c.sound.volume.block];
    var m := m["soundCategory_hostile" := c.sound.volume.hostile];
    var m := m["soundCategory_neutral" := c.sound.volume.neutral];
    var m := m["soundCategory_player" := c.sound.volume.player];
    var m := m["soundCategory_ambient" := c.sound.volume.ambient];
    var m := m["soundCategory_voice" := c.sound.volume.voice];
    var m := m["modelPart_cape" := Text.BoolToString(c.skin.cape)];
    var m := m["modelPart_jacket" := Text.BoolToString(c.skin.jacket)];
    var m := m["modelPart_left_sleeve" := Text.BoolToString(c.skin.leftSleeve)];
    var m := m["modelPart_right_sleeve" := Text.BoolToString(c.skin.rightSleeve)];
    var m := m["modelPart_left_pants_leg" := Text.BoolToString(c.skin.leftPants)];
    var m := m["modelPart_right_pants_leg" := Text.BoolToString(c.skin.rightPants)];
    var m := m["modelPart_hat" := Text.BoolToString(c.skin.hat)];
    var m := if g.after14w28a && g.before15w31a then m["allowBlockAlternatives" := Text.BoolToString(c.video.allowBlockAlternatives)] else m;
    var m := if c.video.fullscreenResolution.Some? then m["fullscreenResolution" := WriteFullscreenResolution(c.video.fullscreenResolution.value)] else m;
    m
  }

  /** Lines 209-233 of `write_keys`. */
  method WriteVolumeAndSkin(c: ClientOptions.ClientOptions, g: Gates, out0: map<string, string>) returns (out: map<string, string>)
    ensures out == VolumeAndSkinKeys(c, g, out0)
  {
    out := out0;
    out := out["soundCategory_master" := c.sound.volume.master];
    out := out["soundCategory_music" := c.sound.volume.music];
    out := out["soundCategory_record" := c.sound.volume.record];
    out := out["soundCategory_weather" := c.sound.volume.weather];
    out := out["soundCategory_block" := c.sound.volume.block];
    out := out["soundCategory_hostile" := c.sound.volume.hostile];
    out := out["soundCategory_neutral" := c.sound.volume.neutral];
    out := out["soundCategory_player" := c.sound.volume.player];
    out := out["soundCategory_ambient" := c.sound.volume.ambient];
    out := out["soundCategory_voice" := c.sound.volume.voice];
    out := out["modelPart_cape" := Text.BoolToString(c.skin.cape)];
    out := out["modelPart_jacket" := Text.BoolToString(c.skin.jacket)];
    out := out["modelPart_left_sleeve" := Text.BoolToString(c.skin.leftSleeve)];
    out := out["modelPart_right_sleeve" := Text.BoolToString(c.skin.rightSleeve)];
    out := out["modelPart_left_pants_leg" := Text.BoolToString(c.skin.leftPants)];
    out := out["modelPart_right_pants_leg" := Text.BoolToString(c.skin.rightPants)];
    out := out["modelPart_hat" := Text.BoolToString(c.skin.hat)];
    if g.after14w28a && g.before15w31a {
      out := out["allowBlockAlternatives" := Text.BoolToString(c.video.allowBlockAlternatives)];
    }
    if c.video.fullscreenResolution.Some? {
      out := out["fullscreenResolution" := WriteFullscreenResolution(c.video.fullscreenResolution.value)];
    }
  }

  /** The map `write_keys` returns. */
  function OptionsKeys(c: ClientOptions.ClientOptions, g: Gates): map<string, string> {
    var m := BasicKeys(c, g, map[]);
    var m := VisualKeys(c, g, m);
    var m := EffectsKeys(c, g, m);
    var m := RenderingKeys(c, g, m);
    var m := ChatKeys(c, g, m);
    var m := InterfaceKeys(c, g, m);
    var m := WarningsKeys(c, g, m);
    var m := WorldKeys(c, g, m);
    var m := KeyBindsKeys(c, g, m);
    var m := ToolbarAndHotbarKeys(c, g, m);
    VolumeAndSkinKeys(c, g, m)
  }

  /** `write_keys`: it never fails. */
  method WriteKeys(c: ClientOptions.ClientOptions, g: Gates) returns (r: Result<map<string, string>, string>)
    ensures r == Ok(OptionsKeys(c, g))
  {
    var out: map<string, string> := map[];
    out := WriteBasic(c, g, out);
    out := WriteVisual(c, g, out);
    out := WriteEffects(c, g, out);
    out := WriteRendering(c, g, out);
    out := WriteChat(c, g, out);
    out := WriteInterface(c, g, out);
    out := WriteWarnings(c, g, out);
    out := WriteWorld(c, g, out);
    out := WriteKeyBinds(c, g, out);
    out := WriteToolbarAndHotbar(c, g, out);
    out := WriteVolumeAndSkin(c, g, out);
    return Ok(out);
  }
}
