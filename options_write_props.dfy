/**
 * What the options map `write_keys` returns holds, key by key: each section of the
 * writer leaves the keys it does not name alone, the ungated keys are always written,
 * and the version-gated keys are written exactly when their gate holds.
 */
module OptionsWriteProps {
  import opened Wrappers
  import ClientOptions
  import opened OptionsWrite

  /** The keys lines 63-77 of `write_keys` may write. */
  const BasicNames: set<string> := {"autoJump", "autoSuggestions", "chatColors", "chatLinks", "chatLinksPrompt", "enableVsync", "entityShadows", "forceUnicodeFont", "discrete_mouse_scroll", "invertYMouse", "realmsNotifications", "reducedDebugInfo", "showSubtitles"}

  /** The keys lines 63-77 of `write_keys` always write. */
  const BasicAlways: set<string> := {"autoJump", "chatColors", "chatLinks", "chatLinksPrompt", "enableVsync", "entityShadows", "forceUnicodeFont", "discrete_mouse_scroll", "invertYMouse", "realmsNotifications", "reducedDebugInfo", "showSubtitles"}

  /** Lines 63-77 of `write_keys` leave every other key as it was. */
  lemma BasicFrame(c: ClientOptions.ClientOptions, g: Gates, m: map<string, string>, k: string)
    requires k !in BasicNames
    ensures k in BasicKeys(c, g, m) <==> k in m
    ensures k in m ==> BasicKeys(c, g, m)[k] == m[k]
  {
  }

  /** Lines 63-77 of `write_keys` remove no key and add the ungated ones. */
  lemma BasicGrows(c: ClientOptions.ClientOptions, g: Gates, m: map<string, string>)
    ensures m.Keys + BasicAlways <= BasicKeys(c, g, m).Keys
  {
  }

  /** The keys lines 78-87 of `write_keys` may write. */
  const VisualNames: set<string> := {"directionalAudio", "touchscreen", "bobView", "toggleCrouch", "toggleSprint", "darkMojangStudiosBackground"}

  /** The keys lines 78-87 of `write_keys` always write. */
  const VisualAlways: set<string> := {"touchscreen", "bobView", "toggleCrouch", "toggleSprint"}

  /** Lines 78-87 of `write_keys` leave every other key as it was. */
  lemma VisualFrame(c: ClientOptions.ClientOptions, g: Gates, m: map<string, string>, k: string)
    requires k !in VisualNames
    ensures k in VisualKeys(c, g, m) <==> k in m
    ensures k in m ==> VisualKeys(c, g, m)[k] == m[k]
  {
  }

  /** Lines 78-87 of `write_keys` remove no key and add the ungated ones. */
  lemma VisualGrows(c: ClientOptions.ClientOptions, g: Gates, m: map<string, string>)
    ensures m.Keys + VisualAlways <= VisualKeys(c, g, m).Keys
  {
  }

  /** The keys lines 88-101 of `write_keys` may write. */
  const EffectsNames: set<string> := {"hideLightningFlashes", "prioritizeChunkUpdates", "soundDevice", "mouseSensitivity", "fov", "screenEffectScale", "fovEffectScale", "darknessEffectScale"}

  /** The keys lines 88-101 of `write_keys` always write. */
  const EffectsAlways: set<string> := {"mouseSensitivity", "fov", "screenEffectScale", "fovEffectScale"}

  /** Lines 88-101 of `write_keys` leave every other key as it was. */
  lemma EffectsFrame(c: ClientOptions.ClientOptions, g: Gates, m: map<string, string>, k: string)
    requires k !in EffectsNames
    ensures k in EffectsKeys(c, g, m) <==> k in m
    ensures k in m ==> EffectsKeys(c, g, m)[k] == m[k]
  {
  }

  /** Lines 88-101 of `write_keys` remove no key and add the ungated ones. */
  lemma EffectsGrows(c: ClientOptions.ClientOptions, g: Gates, m: map<string, string>)
    ensures m.Keys + EffectsAlways <= EffectsKeys(c, g, m).Keys
  {
  }

  /** The keys lines 102-120 of `write_keys` may write. */
  const RenderingNames: set<string> := {"gamma", "renderDistance", "simulationDistance", "entityDistanceScaling", "guiScale", "particles", "maxFps", "difficulty", "graphicsMode", "ao", "biomeBlendRadius", "renderClouds", "resourcePacks", "incompatibleResourcePacks", "lang"}

  /** The keys lines 102-120 of `write_keys` always write. */
  const RenderingAlways: set<string> := {"gamma", "renderDistance", "entityDistanceScaling", "guiScale", "particles", "maxFps", "difficulty", "graphicsMode", "ao", "renderClouds", "resourcePacks", "incompatibleResourcePacks", "lang"}

  /** Lines 102-120 of `write_keys` leave every other key as it was. */
  lemma RenderingFrame(c: ClientOptions.ClientOptions, g: Gates, m: map<string, string>, k: string)
    requires k !in RenderingNames
    ensures k in RenderingKeys(c, g, m) <==> k in m
    ensures k in m ==> RenderingKeys(c, g, m)[k] == m[k]
  {
  }

  /** Lines 102-120 of `write_keys` remove no key and add the ungated ones. */
  lemma RenderingGrows(c: ClientOptions.ClientOptions, g: Gates, m: map<string, string>)
    ensures m.Keys + RenderingAlways <= RenderingKeys(c, g, m).Keys
  {
  }

  /** The keys lines 121-140 of `write_keys` may write. */
  const ChatNames: set<string> := {"chatVisibility", "chatOpacity", "chatLineSpacing", "textBackgroundOpacity", "backgroundForChatOnly", "hideServerAddress", "advancedItemTooltips", "pauseOnLostFocus", "overrideWidth", "overrideHeight", "heldItemTooltips", "chatHeightFocused", "chatDelay", "chatHeightUnfocused", "chatScale", "chatWidth", "mipmapLevels", "useNativeTransport"}

  /** The keys lines 121-140 of `write_keys` always write. */
  const ChatAlways: set<string> := {"chatVisibility", "chatOpacity", "chatLineSpacing", "textBackgroundOpacity", "backgroundForChatOnly", "hideServerAddress", "advancedItemTooltips", "pauseOnLostFocus", "overrideWidth", "overrideHeight", "chatHeightFocused", "chatDelay", "chatHeightUnfocused", "chatScale", "chatWidth", "mipmapLevels", "useNativeTransport"}

  /** Lines 121-140 of `write_keys` leave every other key as it was. */
  lemma ChatFrame(c: ClientOptions.ClientOptions, g: Gates, m: map<string, string>, k: string)
    requires k !in ChatNames
    ensures k in ChatKeys(c, g, m) <==> k in m
    ensures k in m ==> ChatKeys(c, g, m)[k] == m[k]
  {
  }

  /** Lines 121-140 of `write_keys` remove no key and add the ungated ones. */
  lemma ChatGrows(c: ClientOptions.ClientOptions, g: Gates, m: map<string, string>)
    ensures m.Keys + ChatAlways <= ChatKeys(c, g, m).Keys
  {
  }

  /** The keys lines 141-152 of `write_keys` may write. */
  const InterfaceNames: set<string> := {"mainHand", "narrator", "tutorialStep", "mouseWheelSensitivity", "rawMouseInput", "glDebugVerbosity"}

  /** The keys lines 141-152 of `write_keys` always write. */
  const InterfaceAlways: set<string> := {"mainHand", "rawMouseInput"}

  /** Lines 141-152 of `write_keys` leave every other key as it was. */
  lemma InterfaceFrame(c: ClientOptions.ClientOptions, g: Gates, m: map<string, string>, k: string)
    requires k !in InterfaceNames
    ensures k in InterfaceKeys(c, g, m) <==> k in m
    ensures k in m ==> InterfaceKeys(c, g, m)[k] == m[k]
  {
  }

  /** Lines 141-152 of `write_keys` remove no key and add the ungated ones. */
  lemma InterfaceGrows(c: ClientOptions.ClientOptions, g: Gates, m: map<string, string>)
    ensures m.Keys + InterfaceAlways <= InterfaceKeys(c, g, m).Keys
  {
  }

  /** The keys lines 153-162 of `write_keys` may write. */
  const WarningsNames: set<string> := {"skipMultiplayerWarning", "skipRealms32bitWarning", "hideMatchedNames", "joinedFirstServer"}

  /** The keys lines 153-162 of `write_keys` always write. */
  const WarningsAlways: set<string> := {}

  /** Lines 153-162 of `write_keys` leave every other key as it was. */
  lemma WarningsFrame(c: ClientOptions.ClientOptions, g: Gates, m: map<string, string>, k: string)
    requires k !in WarningsNames
    ensures k in WarningsKeys(c, g, m) <==> k in m
    ensures k in m ==> WarningsKeys(c, g, m)[k] == m[k]
  {
  }

  /** Lines 153-162 of `write_keys` remove no key and add the ungated ones. */
  lemma WarningsGrows(c: ClientOptions.ClientOptions, g: Gates, m: map<string, string>)
    ensures m.Keys + WarningsAlways <= WarningsKeys(c, g, m).Keys
  {
  }

  /** The keys lines 163-170 of `write_keys` may write. */
  const WorldNames: set<string> := {"hideBundleTutorial", "syncChunkWrites", "showAutosaveIndicator", "allowServerListing"}

  /** The keys lines 163-170 of `write_keys` always write. */
  const WorldAlways: set<string> := {"hideBundleTutorial", "syncChunkWrites"}

  /** Lines 163-170 of `write_keys` leave every other key as it was. */
  lemma WorldFrame(c: ClientOptions.ClientOptions, g: Gates, m: map<string, string>, k: string)
    requires k !in WorldNames
    ensures k in WorldKeys(c, g, m) <==> k in m
    ensures k in m ==> WorldKeys(c, g, m)[k] == m[k]
  {
  }

  /** Lines 163-170 of `write_keys` remove no key and add the ungated ones. */
  lemma WorldGrows(c: ClientOptions.ClientOptions, g: Gates, m: map<string, string>)
    ensures m.Keys + WorldAlways <= WorldKeys(c, g, m).Keys
  {
  }

  /** The keys lines 172-193 of `write_keys` may write. */
  const KeyBindsNames: set<string> := {"key_key.attack", "key_key.use", "key_key.forward", "key_key.left", "key_key.back", "key_key.right", "key_key.jump", "key_key.sneak", "key_key.sprint", "key_key.drop", "key_key.inventory", "key_key.chat", "key_key.playerlist", "key_key.pickItem", "key_key.command", "key_key.socialInteractions", "key_key.screenshot", "key_key.togglePerspective", "key_key.smoothCamera", "key_key.fullscreen", "key_key.spectatorOutlines", "key_key.swapOffhand"}

  /** The keys lines 172-193 of `write_keys` always write. */
  const KeyBindsAlways: set<string> := {"key_key.attack", "key_key.use", "key_key.forward", "key_key.left", "key_key.back", "key_key.right", "key_key.jump", "key_key.sneak", "key_key.sprint", "key_key.drop", "key_key.inventory", "key_key.chat", "key_key.playerlist", "key_key.pickItem", "key_key.command", "key_key.socialInteractions", "key_key.screenshot", "key_key.togglePerspective", "key_key.smoothCamera", "key_key.fullscreen", "key_key.spectatorOutlines", "key_key.swapOffhand"}

  /** Lines 172-193 of `write_keys` leave every other key as it was. */
  lemma KeyBindsFrame(c: ClientOptions.ClientOptions, g: Gates, m: map<string, string>, k: string)
    requires k !in KeyBindsNames
    ensures k in KeyBindsKeys(c, g, m) <==> k in m
    ensures k in m ==> KeyBindsKeys(c, g, m)[k] == m[k]
  {
  }

  /** Lines 172-193 of `write_keys` remove no key and add the ungated ones. */
  lemma KeyBindsGrows(c: ClientOptions.ClientOptions, g: Gates, m: map<string, string>)
    ensures m.Keys + KeyBindsAlways <= KeyBindsKeys(c, g, m).Keys
  {
  }

  /** The keys lines 194-207 of `write_keys` may write. */
  const ToolbarAndHotbarNames: set<string> := {"key_key.saveToolbarActivator", "key_key.loadToolbarActivator", "key_key.advancements", "key_key.hotbar.1", "key_key.hotbar.2", "key_key.hotbar.3", "key_key.hotbar.4", "key_key.hotbar.5", "key_key.hotbar.6", "key_key.hotbar.7", "key_key.hotbar.8", "key_key.hotbar.9"}

  /** The keys lines 194-207 of `write_keys` always write. */
  const ToolbarAndHotbarAlways: set<string> := {"key_key.hotbar.1", "key_key.hotbar.2", "key_key.hotbar.3", "key_key.hotbar.4", "key_key.hotbar.5", "key_key.hotbar.6", "key_key.hotbar.7", "key_key.hotbar.8", "key_key.hotbar.9"}

  /** Lines 194-207 of `write_keys` leave every other key as it was. */
  lemma ToolbarAndHotbarFrame(c: ClientOptions.ClientOptions, g: Gates, m: map<string, string>, k: string)
    requires k !in ToolbarAndHotbarNames
    ensures k in ToolbarAndHotbarKeys(c, g, m) <==> k in m
    ensures k in m ==> ToolbarAndHotbarKeys(c, g, m)[k] == m[k]
  {
  }

  /** Lines 194-207 of `write_keys` remove no key and add the ungated ones. */
  lemma ToolbarAndHotbarGrows(c: ClientOptions.ClientOptions, g: Gates, m: map<string, string>)
    ensures m.Keys + ToolbarAndHotbarAlways <= ToolbarAndHotbarKeys(c, g, m).Keys
  {
  }

  /** The keys lines 209-233 of `write_keys` may write. */
  const VolumeAndSkinNames: set<string> := {"soundCategory_master", "soundCategory_music", "soundCategory_record", "soundCategory_weather", "soundCategory_block", "soundCategory_hostile", "soundCategory_neutral", "soundCategory_player", "soundCategory_ambient", "soundCategory_voice", "modelPart_cape", "modelPart_jacket", "modelPart_left_sleeve", "modelPart_right_sleeve", "modelPart_left_pants_leg", "modelPart_right_pants_leg", "modelPart_hat", "allowBlockAlternatives", "fullscreenResolution"}

  /** The keys lines 209-233 of `write_keys` always write. */
  const VolumeAndSkinAlways: set<string> := {"soundCategory_master", "soundCategory_music", "soundCategory_record", "soundCategory_weather", "soundCategory_block", "soundCategory_hostile", "soundCategory_neutral", "soundCategory_player", "soundCategory_ambient", "soundCategory_voice", "modelPart_cape", "modelPart_jacket", "modelPart_left_sleeve", "modelPart_right_sleeve", "modelPart_left_pants_leg", "modelPart_right_pants_leg", "modelPart_hat"}

  /** Lines 209-233 of `write_keys` leave every other key as it was. */
  lemma VolumeAndSkinFrame(c: ClientOptions.ClientOptions, g: Gates, m: map<string, string>, k: string)
    requires k !in VolumeAndSkinNames
    ensures k in VolumeAndSkinKeys(c, g, m) <==> k in m
    ensures k in m ==> VolumeAndSkinKeys(c, g, m)[k] == m[k]
  {
  }

  /** Lines 209-233 of `write_keys` remove no key and add the ungated ones. */
  lemma VolumeAndSkinGrows(c: ClientOptions.ClientOptions, g: Gates, m: map<string, string>)
    ensures m.Keys + VolumeAndSkinAlways <= VolumeAndSkinKeys(c, g, m).Keys
  {
  }
  /** Lines 63-77 of `write_keys` write each version-gated key exactly when its gate holds. */
  lemma BasicGatedHere(c: ClientOptions.ClientOptions, g: Gates, m: map<string, string>)
    ensures "autoSuggestions" in BasicKeys(c, g, m) <==> (g.after17w47a) || "autoSuggestions" in m
    ensures g.after17w47a ==> BasicKeys(c, g, m)["autoSuggestions"] == Text.BoolToString(c.chat.autoCommandSuggestions)
  {
  }

  /** No other section names a gated key of lines 63-77. */
  lemma BasicGatedNotElsewhere(k: string)
    requires k in {"autoSuggestions"}
    ensures k !in VisualNames
    ensures k !in EffectsNames
    ensures k !in RenderingNames
    ensures k !in ChatNames
    ensures k !in InterfaceNames
    ensures k !in WarningsNames
    ensures k !in WorldNames
    ensures k !in KeyBindsNames
    ensures k !in ToolbarAndHotbarNames
    ensures k !in VolumeAndSkinNames
  {
  }

  /** `autoSuggestions` is in the options map exactly when its gate holds. */
  lemma AutoSuggestionsGate(c: ClientOptions.ClientOptions, g: Gates)
    ensures "autoSuggestions" in OptionsKeys(c, g) <==> g.after17w47a
    ensures "autoSuggestions" in OptionsKeys(c, g) ==> OptionsKeys(c, g)["autoSuggestions"] == Text.BoolToString(c.chat.autoCommandSuggestions)
  {
    BasicGatedNotElsewhere("autoSuggestions");
    var m0: map<string, string> := map[];
    BasicGatedHere(c, g, m0);
    var m1 := BasicKeys(c, g, m0);
    VisualFrame(c, g, m1, "autoSuggestions");
    var m2 := VisualKeys(c, g, m1);
    EffectsFrame(c, g, m2, "autoSuggestions");
    var m3 := EffectsKeys(c, g, m2);
    RenderingFrame(c, g, m3, "autoSuggestions");
    var m4 := RenderingKeys(c, g, m3);
    ChatFrame(c, g, m4, "autoSuggestions");
    var m5 := ChatKeys(c, g, m4);
    InterfaceFrame(c, g, m5, "autoSuggestions");
    var m6 := InterfaceKeys(c, g, m5);
    WarningsFrame(c, g, m6, "autoSuggestions");
    var m7 := WarningsKeys(c, g, m6);
    WorldFrame(c, g, m7, "autoSuggestions");
    var m8 := WorldKeys(c, g, m7);
    KeyBindsFrame(c, g, m8, "autoSuggestions");
    var m9 := KeyBindsKeys(c, g, m8);
    ToolbarAndHotbarFrame(c, g, m9, "autoSuggestions");
    var m10 := ToolbarAndHotbarKeys(c, g, m9);
    VolumeAndSkinFrame(c, g, m10, "autoSuggestions");
  }

  /** Each version-gated key of lines 63-77 is in the options map exactly when its gate holds. */
  lemma BasicGated(c: ClientOptions.ClientOptions, g: Gates)
    ensures "autoSuggestions" in OptionsKeys(c, g) <==> g.after17w47a
    ensures "autoSuggestions" in OptionsKeys(c, g) ==> OptionsKeys(c, g)["autoSuggestions"] == Text.BoolToString(c.chat.autoCommandSuggestions)
  {
    AutoSuggestionsGate(c, g);
  }

  /** Lines 78-87 of `write_keys` write each version-gated key exactly when its gate holds. */
  lemma VisualGatedHere(c: ClientOptions.ClientOptions, g: Gates, m: map<string, string>)
    ensures "directionalAudio" in VisualKeys(c, g, m) <==> (g.after22w11a) || "directionalAudio" in m
    ensures g.after22w11a ==> VisualKeys(c, g, m)["directionalAudio"] == Text.BoolToString(c.sound.directionalAudio)
    ensures "darkMojangStudiosBackground" in VisualKeys(c, g, m) <==> (g.after21w13a) || "darkMojangStudiosBackground" in m
    ensures g.after21w13a ==> VisualKeys(c, g, m)["darkMojangStudiosBackground"] == Text.BoolToString(c.video.darkMojangBackground)
  {
  }

  /** No other section names a gated key of lines 78-87. */
  lemma VisualGatedNotElsewhere(k: string)
    requires k in {"directionalAudio", "darkMojangStudiosBackground"}
    ensures k !in BasicNames
    ensures k !in EffectsNames
    ensures k !in RenderingNames
    ensures k !in ChatNames
    ensures k !in InterfaceNames
    ensures k !in WarningsNames
    ensures k !in WorldNames
    ensures k !in KeyBindsNames
    ensures k !in ToolbarAndHotbarNames
    ensures k !in VolumeAndSkinNames
  {
  }

  /** `directionalAudio` is in the options map exactly when its gate holds. */
  lemma DirectionalAudioGate(c: ClientOptions.ClientOptions, g: Gates)
    ensures "directionalAudio" in OptionsKeys(c, g) <==> g.after22w11a
    ensures "directionalAudio" in OptionsKeys(c, g) ==> OptionsKeys(c, g)["directionalAudio"] == Text.BoolToString(c.sound.directionalAudio)
  {
    VisualGatedNotElsewhere("directionalAudio");
    var m0: map<string, string> := map[];
    BasicFrame(c, g, m0, "directionalAudio");
    var m1 := BasicKeys(c, g, m0);
    VisualGatedHere(c, g, m1);
    var m2 := VisualKeys(c, g, m1);
    EffectsFrame(c, g, m2, "directionalAudio");
    var m3 := EffectsKeys(c, g, m2);
    RenderingFrame(c, g, m3, "directionalAudio");
    var m4 := RenderingKeys(c, g, m3);
    ChatFrame(c, g, m4, "directionalAudio");
    var m5 := ChatKeys(c, g, m4);
    InterfaceFrame(c, g, m5, "directionalAudio");
    var m6 := InterfaceKeys(c, g, m5);
    WarningsFrame(c, g, m6, "directionalAudio");
    var m7 := WarningsKeys(c, g, m6);
    WorldFrame(c, g, m7, "directionalAudio");
    var m8 := WorldKeys(c, g, m7);
    KeyBindsFrame(c, g, m8, "directionalAudio");
    var m9 := KeyBindsKeys(c, g, m8);
    ToolbarAndHotbarFrame(c, g, m9, "directionalAudio");
    var m10 := ToolbarAndHotbarKeys(c, g, m9);
    VolumeAndSkinFrame(c, g, m10, "directionalAudio");
  }

  /** `darkMojangStudiosBackground` is in the options map exactly when its gate holds. */
  lemma DarkMojangStudiosBackgroundGate(c: ClientOptions.ClientOptions, g: Gates)
    ensures "darkMojangStudiosBackground" in OptionsKeys(c, g) <==> g.after21w13a
    ensures "darkMojangStudiosBackground" in OptionsKeys(c, g) ==> OptionsKeys(c, g)["darkMojangStudiosBackground"] == Text.BoolToString(c.video.darkMojangBackground)
  {
    VisualGatedNotElsewhere("darkMojangStudiosBackground");
    var m0: map<string, string> := map[];
    BasicFrame(c, g, m0, "darkMojangStudiosBackground");
    var m1 := BasicKeys(c, g, m0);
    VisualGatedHere(c, g, m1);
    var m2 := VisualKeys(c, g, m1);
    EffectsFrame(c, g, m2, "darkMojangStudiosBackground");
    var m3 := EffectsKeys(c, g, m2);
    RenderingFrame(c, g, m3, "darkMojangStudiosBackground");
    var m4 := RenderingKeys(c, g, m3);
    ChatFrame(c, g, m4, "darkMojangStudiosBackground");
    var m5 := ChatKeys(c, g, m4);
    InterfaceFrame(c, g, m5, "darkMojangStudiosBackground");
    var m6 := InterfaceKeys(c, g, m5);
    WarningsFrame(c, g, m6, "darkMojangStudiosBackground");
    var m7 := WarningsKeys(c, g, m6);
    WorldFrame(c, g, m7, "darkMojangStudiosBackground");
    var m8 := WorldKeys(c, g, m7);
    KeyBindsFrame(c, g, m8, "darkMojangStudiosBackground");
    var m9 := KeyBindsKeys(c, g, m8);
    ToolbarAndHotbarFrame(c, g, m9, "darkMojangStudiosBackground");
    var m10 := ToolbarAndHotbarKeys(c, g, m9);
    VolumeAndSkinFrame(c, g, m10, "darkMojangStudiosBackground");
  }

  /** Each version-gated key of lines 78-87 is in the options map exactly when its gate holds. */
  lemma VisualGated(c: ClientOptions.ClientOptions, g: Gates)
    ensures "directionalAudio" in OptionsKeys(c, g) <==> g.after22w11a
    ensures "directionalAudio" in OptionsKeys(c, g) ==> OptionsKeys(c, g)["directionalAudio"] == Text.BoolToString(c.sound.directionalAudio)
    ensures "darkMojangStudiosBackground" in OptionsKeys(c, g) <==> g.after21w13a
    ensures "darkMojangStudiosBackground" in OptionsKeys(c, g) ==> OptionsKeys(c, g)["darkMojangStudiosBackground"] == Text.BoolToString(c.video.darkMojangBackground)
  {
    DirectionalAudioGate(c, g);
    DarkMojangStudiosBackgroundGate(c, g);
  }

  /** Lines 88-101 of `write_keys` write each version-gated key exactly when its gate holds. */
  lemma EffectsGatedHere(c: ClientOptions.ClientOptions, g: Gates, m: map<string, string>)
    ensures "hideLightningFlashes" in EffectsKeys(c, g, m) <==> (g.after21w37a) || "hideLightningFlashes" in m
    ensures g.after21w37a ==> EffectsKeys(c, g, m)["hideLightningFlashes"] == Text.BoolToString(c.video.hideLightningFlashes)
    ensures "prioritizeChunkUpdates" in EffectsKeys(c, g, m) <==> (g.after21w37a) || "prioritizeChunkUpdates" in m
    ensures g.after21w37a ==> EffectsKeys(c, g, m)["prioritizeChunkUpdates"] == Text.IntToString(ClientOptions.ChunkUpdatesModeToInt(c.video.chunkUpdatesMode))
    ensures "soundDevice" in EffectsKeys(c, g, m) <==> (g.after21w37a && c.sound.device.Some?) || "soundDevice" in m
    ensures g.after21w37a && c.sound.device.Some? ==> EffectsKeys(c, g, m)["soundDevice"] == c.sound.device.value
    ensures "darknessEffectScale" in EffectsKeys(c, g, m) <==> (g.after22w15a) || "darknessEffectScale" in m
    ensures g.after22w15a ==> EffectsKeys(c, g, m)["darknessEffectScale"] == c.video.darknessEffectScale
  {
  }

  /** No other section names a gated key of lines 88-101. */
  lemma EffectsGatedNotElsewhere(k: string)
    requires k in {"hideLightningFlashes", "prioritizeChunkUpdates", "soundDevice", "darknessEffectScale"}
    ensures k !in BasicNames
    ensures k !in VisualNames
    ensures k !in RenderingNames
    ensures k !in ChatNames
    ensures k !in InterfaceNames
    ensures k !in WarningsNames
    ensures k !in WorldNames
    ensures k !in KeyBindsNames
    ensures k !in ToolbarAndHotbarNames
    ensures k !in VolumeAndSkinNames
  {
  }

  /** `hideLightningFlashes` is in the options map exactly when its gate holds. */
  lemma HideLightningFlashesGate(c: ClientOptions.ClientOptions, g: Gates)
    ensures "hideLightningFlashes" in OptionsKeys(c, g) <==> g.after21w37a
    ensures "hideLightningFlashes" in OptionsKeys(c, g) ==> OptionsKeys(c, g)["hideLightningFlashes"] == Text.BoolToString(c.video.hideLightningFlashes)
  {
    EffectsGatedNotElsewhere("hideLightningFlashes");
    var m0: map<string, string> := map[];
    BasicFrame(c, g, m0, "hideLightningFlashes");
    var m1 := BasicKeys(c, g, m0);
    VisualFrame(c, g, m1, "hideLightningFlashes");
    var m2 := VisualKeys(c, g, m1);
    EffectsGatedHere(c, g, m2);
    var m3 := EffectsKeys(c, g, m2);
    RenderingFrame(c, g, m3, "hideLightningFlashes");
    var m4 := RenderingKeys(c, g, m3);
    ChatFrame(c, g, m4, "hideLightningFlashes");
    var m5 := ChatKeys(c, g, m4);
    InterfaceFrame(c, g, m5, "hideLightningFlashes");
    var m6 := InterfaceKeys(c, g, m5);
    WarningsFrame(c, g, m6, "hideLightningFlashes");
    var m7 := WarningsKeys(c, g, m6);
    WorldFrame(c, g, m7, "hideLightningFlashes");
    var m8 := WorldKeys(c, g, m7);
    KeyBindsFrame(c, g, m8, "hideLightningFlashes");
    var m9 := KeyBindsKeys(c, g, m8);
    ToolbarAndHotbarFrame(c, g, m9, "hideLightningFlashes");
    var m10 := ToolbarAndHotbarKeys(c, g, m9);
    VolumeAndSkinFrame(c, g, m10, "hideLightningFlashes");
  }

  /** `prioritizeChunkUpdates` is in the options map exactly when its gate holds. */
  lemma PrioritizeChunkUpdatesGate(c: ClientOptions.ClientOptions, g: Gates)
    ensures "prioritizeChunkUpdates" in OptionsKeys(c, g) <==> g.after21w37a
    ensures "prioritizeChunkUpdates" in OptionsKeys(c, g) ==> OptionsKeys(c, g)["prioritizeChunkUpdates"] == Text.IntToString(ClientOptions.ChunkUpdatesModeToInt(c.video.chunkUpdatesMode))
  {
    EffectsGatedNotElsewhere("prioritizeChunkUpdates");
    var m0: map<string, string> := map[];
    BasicFrame(c, g, m0, "prioritizeChunkUpdates");
    var m1 := BasicKeys(c, g, m0);
    VisualFrame(c, g, m1, "prioritizeChunkUpdates");
    var m2 := VisualKeys(c, g, m1);
    EffectsGatedHere(c, g, m2);
    var m3 := EffectsKeys(c, g, m2);
    RenderingFrame(c, g, m3, "prioritizeChunkUpdates");
    var m4 := RenderingKeys(c, g, m3);
    ChatFrame(c, g, m4, "prioritizeChunkUpdates");
    var m5 := ChatKeys(c, g, m4);
    InterfaceFrame(c, g, m5, "prioritizeChunkUpdates");
    var m6 := InterfaceKeys(c, g, m5);
    WarningsFrame(c, g, m6, "prioritizeChunkUpdates");
    var m7 := WarningsKeys(c, g, m6);
    WorldFrame(c, g, m7, "prioritizeChunkUpdates");
    var m8 := WorldKeys(c, g, m7);
    KeyBindsFrame(c, g, m8, "prioritizeChunkUpdates");
    var m9 := KeyBindsKeys(c, g, m8);
    ToolbarAndHotbarFrame(c, g, m9, "prioritizeChunkUpdates");
    var m10 := ToolbarAndHotbarKeys(c, g, m9);
    VolumeAndSkinFrame(c, g, m10, "prioritizeChunkUpdates");
  }

  /** `soundDevice` is in the options map exactly when its gate holds. */
  lemma SoundDeviceGate(c: ClientOptions.ClientOptions, g: Gates)
    ensures "soundDevice" in OptionsKeys(c, g) <==> g.after21w37a && c.sound.device.Some?
    ensures "soundDevice" in OptionsKeys(c, g) ==> OptionsKeys(c, g)["soundDevice"] == c.sound.device.value
  {
    EffectsGatedNotElsewhere("soundDevice");
    var m0: map<string, string> := map[];
    BasicFrame(c, g, m0, "soundDevice");
    var m1 := BasicKeys(c, g, m0);
    VisualFrame(c, g, m1, "soundDevice");
    var m2 := VisualKeys(c, g, m1);
    EffectsGatedHere(c, g, m2);
    var m3 := EffectsKeys(c, g, m2);
    RenderingFrame(c, g, m3, "soundDevice");
    var m4 := RenderingKeys(c, g, m3);
    ChatFrame(c, g, m4, "soundDevice");
    var m5 := ChatKeys(c, g, m4);
    InterfaceFrame(c, g, m5, "soundDevice");
    var m6 := InterfaceKeys(c, g, m5);
    WarningsFrame(c, g, m6, "soundDevice");
    var m7 := WarningsKeys(c, g, m6);
    WorldFrame(c, g, m7, "soundDevice");
    var m8 := WorldKeys(c, g, m7);
    KeyBindsFrame(c, g, m8, "soundDevice");
    var m9 := KeyBindsKeys(c, g, m8);
    ToolbarAndHotbarFrame(c, g, m9, "soundDevice");
    var m10 := ToolbarAndHotbarKeys(c, g, m9);
    VolumeAndSkinFrame(c, g, m10, "soundDevice");
  }

  /** `darknessEffectScale` is in the options map exactly when its gate holds. */
  lemma DarknessEffectScaleGate(c: ClientOptions.ClientOptions, g: Gates)
    ensures "darknessEffectScale" in OptionsKeys(c, g) <==> g.after22w15a
    ensures "darknessEffectScale" in OptionsKeys(c, g) ==> OptionsKeys(c, g)["darknessEffectScale"] == c.video.darknessEffectScale
  {
    EffectsGatedNotElsewhere("darknessEffectScale");
    var m0: map<string, string> := map[];
    BasicFrame(c, g, m0, "darknessEffectScale");
    var m1 := BasicKeys(c, g, m0);
    VisualFrame(c, g, m1, "darknessEffectScale");
    var m2 := VisualKeys(c, g, m1);
    EffectsGatedHere(c, g, m2);
    var m3 := EffectsKeys(c, g, m2);
    RenderingFrame(c, g, m3, "darknessEffectScale");
    var m4 := RenderingKeys(c, g, m3);
    ChatFrame(c, g, m4, "darknessEffectScale");
    var m5 := ChatKeys(c, g, m4);
    InterfaceFrame(c, g, m5, "darknessEffectScale");
    var m6 := InterfaceKeys(c, g, m5);
    WarningsFrame(c, g, m6, "darknessEffectScale");
    var m7 := WarningsKeys(c, g, m6);
    WorldFrame(c, g, m7, "darknessEffectScale");
    var m8 := WorldKeys(c, g, m7);
    KeyBindsFrame(c, g, m8, "darknessEffectScale");
    var m9 := KeyBindsKeys(c, g, m8);
    ToolbarAndHotbarFrame(c, g, m9, "darknessEffectScale");
    var m10 := ToolbarAndHotbarKeys(c, g, m9);
    VolumeAndSkinFrame(c, g, m10, "darknessEffectScale");
  }

  /** Each version-gated key of lines 88-101 is in the options map exactly when its gate holds. */
  lemma EffectsGated(c: ClientOptions.ClientOptions, g: Gates)
    ensures "hideLightningFlashes" in OptionsKeys(c, g) <==> g.after21w37a
    ensures "hideLightningFlashes" in OptionsKeys(c, g) ==> OptionsKeys(c, g)["hideLightningFlashes"] == Text.BoolToString(c.video.hideLightningFlashes)
    ensures "prioritizeChunkUpdates" in OptionsKeys(c, g) <==> g.after21w37a
    ensures "prioritizeChunkUpdates" in OptionsKeys(c, g) ==> OptionsKeys(c, g)["prioritizeChunkUpdates"] == Text.IntToString(ClientOptions.ChunkUpdatesModeToInt(c.video.chunkUpdatesMode))
    ensures "soundDevice" in OptionsKeys(c, g) <==> g.after21w37a && c.sound.device.Some?
    ensures "soundDevice" in OptionsKeys(c, g) ==> OptionsKeys(c, g)["soundDevice"] == c.sound.device.value
    ensures "darknessEffectScale" in OptionsKeys(c, g) <==> g.after22w15a
    ensures "darknessEffectScale" in OptionsKeys(c, g) ==> OptionsKeys(c, g)["darknessEffectScale"] == c.video.darknessEffectScale
  {
    HideLightningFlashesGate(c, g);
    PrioritizeChunkUpdatesGate(c, g);
    SoundDeviceGate(c, g);
    DarknessEffectScaleGate(c, g);
  }

  /** Lines 102-120 of `write_keys` write each version-gated key exactly when its gate holds. */
  lemma RenderingGatedHere(c: ClientOptions.ClientOptions, g: Gates, m: map<string, string>)
    ensures "simulationDistance" in RenderingKeys(c, g, m) <==> (g.after21w38a) || "simulationDistance" in m
    ensures g.after21w38a ==> RenderingKeys(c, g, m)["simulationDistance"] == Text.NatToString(c.video.simulationDistance)
    ensures "biomeBlendRadius" in RenderingKeys(c, g, m) <==> (g.after18w15a) || "biomeBlendRadius" in m
    ensures g.after18w15a ==> RenderingKeys(c, g, m)["biomeBlendRadius"] == Text.NatToString(c.video.biomeBlend)
  {
  }

  /** No other section names a gated key of lines 102-120. */
  lemma RenderingGatedNotElsewhere(k: string)
    requires k in {"simulationDistance", "biomeBlendRadius"}
    ensures k !in BasicNames
    ensures k !in VisualNames
    ensures k !in EffectsNames
    ensures k !in ChatNames
    ensures k !in InterfaceNames
    ensures k !in WarningsNames
    ensures k !in WorldNames
    ensures k !in KeyBindsNames
    ensures k !in ToolbarAndHotbarNames
    ensures k !in VolumeAndSkinNames
  {
  }

  /** `simulationDistance` is in the options map exactly when its gate holds. */
  lemma SimulationDistanceGate(c: ClientOptions.ClientOptions, g: Gates)
    ensures "simulationDistance" in OptionsKeys(c, g) <==> g.after21w38a
    ensures "simulationDistance" in OptionsKeys(c, g) ==> OptionsKeys(c, g)["simulationDistance"] == Text.NatToString(c.video.simulationDistance)
  {
    RenderingGatedNotElsewhere("simulationDistance");
    var m0: map<string, string> := map[];
    BasicFrame(c, g, m0, "simulationDistance");
    var m1 := BasicKeys(c, g, m0);
    VisualFrame(c, g, m1, "simulationDistance");
    var m2 := VisualKeys(c, g, m1);
    EffectsFrame(c, g, m2, "simulationDistance");
    var m3 := EffectsKeys(c, g, m2);
    RenderingGatedHere(c, g, m3);
    var m4 := RenderingKeys(c, g, m3);
    ChatFrame(c, g, m4, "simulationDistance");
    var m5 := ChatKeys(c, g, m4);
    InterfaceFrame(c, g, m5, "simulationDistance");
    var m6 := InterfaceKeys(c, g, m5);
    WarningsFrame(c, g, m6, "simulationDistance");
    var m7 := WarningsKeys(c, g, m6);
    WorldFrame(c, g, m7, "simulationDistance");
    var m8 := WorldKeys(c, g, m7);
    KeyBindsFrame(c, g, m8, "simulationDistance");
    var m9 := KeyBindsKeys(c, g, m8);
    ToolbarAndHotbarFrame(c, g, m9, "simulationDistance");
    var m10 := ToolbarAndHotbarKeys(c, g, m9);
    VolumeAndSkinFrame(c, g, m10, "simulationDistance");
  }

  /** `biomeBlendRadius` is in the options map exactly when its gate holds. */
  lemma BiomeBlendRadiusGate(c: ClientOptions.ClientOptions, g: Gates)
    ensures "biomeBlendRadius" in OptionsKeys(c, g) <==> g.after18w15a
    ensures "biomeBlendRadius" in OptionsKeys(c, g) ==> OptionsKeys(c, g)["biomeBlendRadius"] == Text.NatToString(c.video.biomeBlend)
  {
    RenderingGatedNotElsewhere("biomeBlendRadius");
    var m0: map<string, string> := map[];
    BasicFrame(c, g, m0, "biomeBlendRadius");
    var m1 := BasicKeys(c, g, m0);
    VisualFrame(c, g, m1, "biomeBlendRadius");
    var m2 := VisualKeys(c, g, m1);
    EffectsFrame(c, g, m2, "biomeBlendRadius");
    var m3 := EffectsKeys(c, g, m2);
    RenderingGatedHere(c, g, m3);
    var m4 := RenderingKeys(c, g, m3);
    ChatFrame(c, g, m4, "biomeBlendRadius");
    var m5 := ChatKeys(c, g, m4);
    InterfaceFrame(c, g, m5, "biomeBlendRadius");
    var m6 := InterfaceKeys(c, g, m5);
    WarningsFrame(c, g, m6, "biomeBlendRadius");
    var m7 := WarningsKeys(c, g, m6);
    WorldFrame(c, g, m7, "biomeBlendRadius");
    var m8 := WorldKeys(c, g, m7);
    KeyBindsFrame(c, g, m8, "biomeBlendRadius");
    var m9 := KeyBindsKeys(c, g, m8);
    ToolbarAndHotbarFrame(c, g, m9, "biomeBlendRadius");
    var m10 := ToolbarAndHotbarKeys(c, g, m9);
    VolumeAndSkinFrame(c, g, m10, "biomeBlendRadius");
  }

  /** Each version-gated key of lines 102-120 is in the options map exactly when its gate holds. */
  lemma RenderingGated(c: ClientOptions.ClientOptions, g: Gates)
    ensures "simulationDistance" in OptionsKeys(c, g) <==> g.after21w38a
    ensures "simulationDistance" in OptionsKeys(c, g) ==> OptionsKeys(c, g)["simulationDistance"] == Text.NatToString(c.video.simulationDistance)
    ensures "biomeBlendRadius" in OptionsKeys(c, g) <==> g.after18w15a
    ensures "biomeBlendRadius" in OptionsKeys(c, g) ==> OptionsKeys(c, g)["biomeBlendRadius"] == Text.NatToString(c.video.biomeBlend)
  {
    SimulationDistanceGate(c, g);
    BiomeBlendRadiusGate(c, g);
  }

  /** Lines 121-140 of `write_keys` write each version-gated key exactly when its gate holds. */
  lemma ChatGatedHere(c: ClientOptions.ClientOptions, g: Gates, m: map<string, string>)
    ensures "heldItemTooltips" in ChatKeys(c, g, m) <==> (g.after12w50a && g.before1_19_4) || "heldItemTooltips" in m
    ensures g.after12w50a && g.before1_19_4 ==> ChatKeys(c, g, m)["heldItemTooltips"] == Text.BoolToString(c.heldItemTooltips)
  {
  }

  /** No other section names a gated key of lines 121-140. */
  lemma ChatGatedNotElsewhere(k: string)
    requires k in {"heldItemTooltips"}
    ensures k !in BasicNames
    ensures k !in VisualNames
    ensures k !in EffectsNames
    ensures k !in RenderingNames
    ensures k !in InterfaceNames
    ensures k !in WarningsNames
    ensures k !in WorldNames
    ensures k !in KeyBindsNames
    ensures k !in ToolbarAndHotbarNames
    ensures k !in VolumeAndSkinNames
  {
  }

  /** `heldItemTooltips` is in the options map exactly when its gate holds. */
  lemma HeldItemTooltipsGate(c: ClientOptions.ClientOptions, g: Gates)
    ensures "heldItemTooltips" in OptionsKeys(c, g) <==> g.after12w50a && g.before1_19_4
    ensures "heldItemTooltips" in OptionsKeys(c, g) ==> OptionsKeys(c, g)["heldItemTooltips"] == Text.BoolToString(c.heldItemTooltips)
  {
    ChatGatedNotElsewhere("heldItemTooltips");
    var m0: map<string, string> := map[];
    BasicFrame(c, g, m0, "heldItemTooltips");
    var m1 := BasicKeys(c, g, m0);
    VisualFrame(c, g, m1, "heldItemTooltips");
    var m2 := VisualKeys(c, g, m1);
    EffectsFrame(c, g, m2, "heldItemTooltips");
    var m3 := EffectsKeys(c, g, m2);
    RenderingFrame(c, g, m3, "heldItemTooltips");
    var m4 := RenderingKeys(c, g, m3);
    ChatGatedHere(c, g, m4);
    var m5 := ChatKeys(c, g, m4);
    InterfaceFrame(c, g, m5, "heldItemTooltips");
    var m6 := InterfaceKeys(c, g, m5);
    WarningsFrame(c, g, m6, "heldItemTooltips");
    var m7 := WarningsKeys(c, g, m6);
    WorldFrame(c, g, m7, "heldItemTooltips");
    var m8 := WorldKeys(c, g, m7);
    KeyBindsFrame(c, g, m8, "heldItemTooltips");
    var m9 := KeyBindsKeys(c, g, m8);
    ToolbarAndHotbarFrame(c, g, m9, "heldItemTooltips");
    var m10 := ToolbarAndHotbarKeys(c, g, m9);
    VolumeAndSkinFrame(c, g, m10, "heldItemTooltips");
  }

  /** Each version-gated key of lines 121-140 is in the options map exactly when its gate holds. */
  lemma ChatGated(c: ClientOptions.ClientOptions, g: Gates)
    ensures "heldItemTooltips" in OptionsKeys(c, g) <==> g.after12w50a && g.before1_19_4
    ensures "heldItemTooltips" in OptionsKeys(c, g) ==> OptionsKeys(c, g)["heldItemTooltips"] == Text.BoolToString(c.heldItemTooltips)
  {
    HeldItemTooltipsGate(c, g);
  }

  /** Lines 141-152 of `write_keys` write each version-gated key exactly when its gate holds. */
  lemma InterfaceGatedHere(c: ClientOptions.ClientOptions, g: Gates, m: map<string, string>)
    ensures "narrator" in InterfaceKeys(c, g, m) <==> (g.after17w06a) || "narrator" in m
    ensures g.after17w06a ==> InterfaceKeys(c, g, m)["narrator"] == Text.IntToString(ClientOptions.NarratorModeToInt(c.chat.narratorMode))
    ensures "tutorialStep" in InterfaceKeys(c, g, m) <==> (g.after17w06a) || "tutorialStep" in m
    ensures g.after17w06a ==> InterfaceKeys(c, g, m)["tutorialStep"] == ClientOptions.TutorialStepText(c.tutorialStep)
    ensures "mouseWheelSensitivity" in InterfaceKeys(c, g, m) <==> (g.after18w21a) || "mouseWheelSensitivity" in m
    ensures g.after18w21a ==> InterfaceKeys(c, g, m)["mouseWheelSensitivity"] == c.control.mouseWheelSensitivity
    ensures "glDebugVerbosity" in InterfaceKeys(c, g, m) <==> (g.after1_13Pre2) || "glDebugVerbosity" in m
    ensures g.after1_13Pre2 ==> InterfaceKeys(c, g, m)["glDebugVerbosity"] == Text.IntToString(ClientOptions.LogLevelToInt(c.logLevel))
  {
  }

  /** No other section names a gated key of lines 141-152. */
  lemma InterfaceGatedNotElsewhere(k: string)
    requires k in {"narrator", "tutorialStep", "mouseWheelSensitivity", "glDebugVerbosity"}
    ensures k !in BasicNames
    ensures k !in VisualNames
    ensures k !in EffectsNames
    ensures k !in RenderingNames
    ensures k !in ChatNames
    ensures k !in WarningsNames
    ensures k !in WorldNames
    ensures k !in KeyBindsNames
    ensures k !in ToolbarAndHotbarNames
    ensures k !in VolumeAndSkinNames
  {
  }

  /** `narrator` is in the options map exactly when its gate holds. */
  lemma NarratorGate(c: ClientOptions.ClientOptions, g: Gates)
    ensures "narrator" in OptionsKeys(c, g) <==> g.after17w06a
    ensures "narrator" in OptionsKeys(c, g) ==> OptionsKeys(c, g)["narrator"] == Text.IntToString(ClientOptions.NarratorModeToInt(c.chat.narratorMode))
  {
    InterfaceGatedNotElsewhere("narrator");
    var m0: map<string, string> := map[];
    BasicFrame(c, g, m0, "narrator");
    var m1 := BasicKeys(c, g, m0);
    VisualFrame(c, g, m1, "narrator");
    var m2 := VisualKeys(c, g, m1);
    EffectsFrame(c, g, m2, "narrator");
    var m3 := EffectsKeys(c, g, m2);
    RenderingFrame(c, g, m3, "narrator");
    var m4 := RenderingKeys(c, g, m3);
    ChatFrame(c, g, m4, "narrator");
    var m5 := ChatKeys(c, g, m4);
    InterfaceGatedHere(c, g, m5);
    var m6 := InterfaceKeys(c, g, m5);
    WarningsFrame(c, g, m6, "narrator");
    var m7 := WarningsKeys(c, g, m6);
    WorldFrame(c, g, m7, "narrator");
    var m8 := WorldKeys(c, g, m7);
    KeyBindsFrame(c, g, m8, "narrator");
    var m9 := KeyBindsKeys(c, g, m8);
    ToolbarAndHotbarFrame(c, g, m9, "narrator");
    var m10 := ToolbarAndHotbarKeys(c, g, m9);
    VolumeAndSkinFrame(c, g, m10, "narrator");
  }

  /** `tutorialStep` is in the options map exactly when its gate holds. */
  lemma TutorialStepGate(c: ClientOptions.ClientOptions, g: Gates)
    ensures "tutorialStep" in OptionsKeys(c, g) <==> g.after17w06a
    ensures "tutorialStep" in OptionsKeys(c, g) ==> OptionsKeys(c, g)["tutorialStep"] == ClientOptions.TutorialStepText(c.tutorialStep)
  {
    InterfaceGatedNotElsewhere("tutorialStep");
    var m0: map<string, string> := map[];
    BasicFrame(c, g, m0, "tutorialStep");
    var m1 := BasicKeys(c, g, m0);
    VisualFrame(c, g, m1, "tutorialStep");
    var m2 := VisualKeys(c, g, m1);
    EffectsFrame(c, g, m2, "tutorialStep");
    var m3 := EffectsKeys(c, g, m2);
    RenderingFrame(c, g, m3, "tutorialStep");
    var m4 := RenderingKeys(c, g, m3);
    ChatFrame(c, g, m4, "tutorialStep");
    var m5 := ChatKeys(c, g, m4);
    InterfaceGatedHere(c, g, m5);
    var m6 := InterfaceKeys(c, g, m5);
    WarningsFrame(c, g, m6, "tutorialStep");
    var m7 := WarningsKeys(c, g, m6);
    WorldFrame(c, g, m7, "tutorialStep");
    var m8 := WorldKeys(c, g, m7);
    KeyBindsFrame(c, g, m8, "tutorialStep");
    var m9 := KeyBindsKeys(c, g, m8);
    ToolbarAndHotbarFrame(c, g, m9, "tutorialStep");
    var m10 := ToolbarAndHotbarKeys(c, g, m9);
    VolumeAndSkinFrame(c, g, m10, "tutorialStep");
  }

  /** `mouseWheelSensitivity` is in the options map exactly when its gate holds. */
  lemma MouseWheelSensitivityGate(c: ClientOptions.ClientOptions, g: Gates)
    ensures "mouseWheelSensitivity" in OptionsKeys(c, g) <==> g.after18w21a
    ensures "mouseWheelSensitivity" in OptionsKeys(c, g) ==> OptionsKeys(c, g)["mouseWheelSensitivity"] == c.control.mouseWheelSensitivity
  {
    InterfaceGatedNotElsewhere("mouseWheelSensitivity");
    var m0: map<string, string> := map[];
    BasicFrame(c, g, m0, "mouseWheelSensitivity");
    var m1 := BasicKeys(c, g, m0);
    VisualFrame(c, g, m1, "mouseWheelSensitivity");
    var m2 := VisualKeys(c, g, m1);
    EffectsFrame(c, g, m2, "mouseWheelSensitivity");
    var m3 := EffectsKeys(c, g, m2);
    RenderingFrame(c, g, m3, "mouseWheelSensitivity");
    var m4 := RenderingKeys(c, g, m3);
    ChatFrame(c, g, m4, "mouseWheelSensitivity");
    var m5 := ChatKeys(c, g, m4);
    InterfaceGatedHere(c, g, m5);
    var m6 := InterfaceKeys(c, g, m5);
    WarningsFrame(c, g, m6, "mouseWheelSensitivity");
    var m7 := WarningsKeys(c, g, m6);
    WorldFrame(c, g, m7, "mouseWheelSensitivity");
    var m8 := WorldKeys(c, g, m7);
    KeyBindsFrame(c, g, m8, "mouseWheelSensitivity");
    var m9 := KeyBindsKeys(c, g, m8);
    ToolbarAndHotbarFrame(c, g, m9, "mouseWheelSensitivity");
    var m10 := ToolbarAndHotbarKeys(c, g, m9);
    VolumeAndSkinFrame(c, g, m10, "mouseWheelSensitivity");
  }

  /** `glDebugVerbosity` is in the options map exactly when its gate holds. */
  lemma GlDebugVerbosityGate(c: ClientOptions.ClientOptions, g: Gates)
    ensures "glDebugVerbosity" in OptionsKeys(c, g) <==> g.after1_13Pre2
    ensures "glDebugVerbosity" in OptionsKeys(c, g) ==> OptionsKeys(c, g)["glDebugVerbosity"] == Text.IntToString(ClientOptions.LogLevelToInt(c.logLevel))
  {
    InterfaceGatedNotElsewhere("glDebugVerbosity");
    var m0: map<string, string> := map[];
    BasicFrame(c, g, m0, "glDebugVerbosity");
    var m1 := BasicKeys(c, g, m0);
    VisualFrame(c, g, m1, "glDebugVerbosity");
    var m2 := VisualKeys(c, g, m1);
    EffectsFrame(c, g, m2, "glDebugVerbosity");
    var m3 := EffectsKeys(c, g, m2);
    RenderingFrame(c, g, m3, "glDebugVerbosity");
    var m4 := RenderingKeys(c, g, m3);
    ChatFrame(c, g, m4, "glDebugVerbosity");
    var m5 := ChatKeys(c, g, m4);
    InterfaceGatedHere(c, g, m5);
    var m6 := InterfaceKeys(c, g, m5);
    WarningsFrame(c, g, m6, "glDebugVerbosity");
    var m7 := WarningsKeys(c, g, m6);
    WorldFrame(c, g, m7, "glDebugVerbosity");
    var m8 := WorldKeys(c, g, m7);
    KeyBindsFrame(c, g, m8, "glDebugVerbosity");
    var m9 := KeyBindsKeys(c, g, m8);
    ToolbarAndHotbarFrame(c, g, m9, "glDebugVerbosity");
    var m10 := ToolbarAndHotbarKeys(c, g, m9);
    VolumeAndSkinFrame(c, g, m10, "glDebugVerbosity");
  }

  /** Each version-gated key of lines 141-152 is in the options map exactly when its gate holds. */
  lemma InterfaceGated(c: ClientOptions.ClientOptions, g: Gates)
    ensures "narrator" in OptionsKeys(c, g) <==> g.after17w06a
    ensures "narrator" in OptionsKeys(c, g) ==> OptionsKeys(c, g)["narrator"] == Text.IntToString(ClientOptions.NarratorModeToInt(c.chat.narratorMode))
    ensures "tutorialStep" in OptionsKeys(c, g) <==> g.after17w06a
    ensures "tutorialStep" in OptionsKeys(c, g) ==> OptionsKeys(c, g)["tutorialStep"] == ClientOptions.TutorialStepText(c.tutorialStep)
    ensures "mouseWheelSensitivity" in OptionsKeys(c, g) <==> g.after18w21a
    ensures "mouseWheelSensitivity" in OptionsKeys(c, g) ==> OptionsKeys(c, g)["mouseWheelSensitivity"] == c.control.mouseWheelSensitivity
    ensures "glDebugVerbosity" in OptionsKeys(c, g) <==> g.after1_13Pre2
    ensures "glDebugVerbosity" in OptionsKeys(c, g) ==> OptionsKeys(c, g)["glDebugVerbosity"] == Text.IntToString(ClientOptions.LogLevelToInt(c.logLevel))
  {
    NarratorGate(c, g);
    TutorialStepGate(c, g);
    MouseWheelSensitivityGate(c, g);
    GlDebugVerbosityGate(c, g);
  }

  /** Lines 153-162 of `write_keys` write each version-gated key exactly when its gate holds. */
  lemma WarningsGatedHere(c: ClientOptions.ClientOptions, g: Gates, m: map<string, string>)
    ensures "skipMultiplayerWarning" in WarningsKeys(c, g, m) <==> (g.after1_15_2Pre1) || "skipMultiplayerWarning" in m
    ensures g.after1_15_2Pre1 ==> WarningsKeys(c, g, m)["skipMultiplayerWarning"] == Text.BoolToString(c.skipMultiplayerWarning)
    ensures "skipRealms32bitWarning" in WarningsKeys(c, g, m) <==> (g.after1_18_2Pre1) || "skipRealms32bitWarning" in m
    ensures g.after1_18_2Pre1 ==> WarningsKeys(c, g, m)["skipRealms32bitWarning"] == Text.BoolToString(c.skipRealms32BitWarning)
    ensures "hideMatchedNames" in WarningsKeys(c, g, m) <==> (g.after1_16_4Rc1) || "hideMatchedNames" in m
    ensures g.after1_16_4Rc1 ==> WarningsKeys(c, g, m)["hideMatchedNames"] == Text.BoolToString(c.hideMatchedNames)
    ensures "joinedFirstServer" in WarningsKeys(c, g, m) <==> (g.after1_16_4Rc1) || "joinedFirstServer" in m
    ensures g.after1_16_4Rc1 ==> WarningsKeys(c, g, m)["joinedFirstServer"] == Text.BoolToString(c.joinedServer)
  {
  }

  /** No other section names a gated key of lines 153-162. */
  lemma WarningsGatedNotElsewhere(k: string)
    requires k in {"skipMultiplayerWarning", "skipRealms32bitWarning", "hideMatchedNames", "joinedFirstServer"}
    ensures k !in BasicNames
    ensures k !in VisualNames
    ensures k !in EffectsNames
    ensures k !in RenderingNames
    ensures k !in ChatNames
    ensures k !in InterfaceNames
    ensures k !in WorldNames
    ensures k !in KeyBindsNames
    ensures k !in ToolbarAndHotbarNames
    ensures k !in VolumeAndSkinNames
  {
  }

  /** `skipMultiplayerWarning` is in the options map exactly when its gate holds. */
  lemma SkipMultiplayerWarningGate(c: ClientOptions.ClientOptions, g: Gates)
    ensures "skipMultiplayerWarning" in OptionsKeys(c, g) <==> g.after1_15_2Pre1
    ensures "skipMultiplayerWarning" in OptionsKeys(c, g) ==> OptionsKeys(c, g)["skipMultiplayerWarning"] == Text.BoolToString(c.skipMultiplayerWarning)
  {
    WarningsGatedNotElsewhere("skipMultiplayerWarning");
    var m0: map<string, string> := map[];
    BasicFrame(c, g, m0, "skipMultiplayerWarning");
    var m1 := BasicKeys(c, g, m0);
    VisualFrame(c, g, m1, "skipMultiplayerWarning");
    var m2 := VisualKeys(c, g, m1);
    EffectsFrame(c, g, m2, "skipMultiplayerWarning");
    var m3 := EffectsKeys(c, g, m2);
    RenderingFrame(c, g, m3, "skipMultiplayerWarning");
    var m4 := RenderingKeys(c, g, m3);
    ChatFrame(c, g, m4, "skipMultiplayerWarning");
    var m5 := ChatKeys(c, g, m4);
    InterfaceFrame(c, g, m5, "skipMultiplayerWarning");
    var m6 := InterfaceKeys(c, g, m5);
    WarningsGatedHere(c, g, m6);
    var m7 := WarningsKeys(c, g, m6);
    WorldFrame(c, g, m7, "skipMultiplayerWarning");
    var m8 := WorldKeys(c, g, m7);
    KeyBindsFrame(c, g, m8, "skipMultiplayerWarning");
    var m9 := KeyBindsKeys(c, g, m8);
    ToolbarAndHotbarFrame(c, g, m9, "skipMultiplayerWarning");
    var m10 := ToolbarAndHotbarKeys(c, g, m9);
    VolumeAndSkinFrame(c, g, m10, "skipMultiplayerWarning");
  }

  /** `skipRealms32bitWarning` is in the options map exactly when its gate holds. */
  lemma SkipRealms32bitWarningGate(c: ClientOptions.ClientOptions, g: Gates)
    ensures "skipRealms32bitWarning" in OptionsKeys(c, g) <==> g.after1_18_2Pre1
    ensures "skipRealms32bitWarning" in OptionsKeys(c, g) ==> OptionsKeys(c, g)["skipRealms32bitWarning"] == Text.BoolToString(c.skipRealms32BitWarning)
  {
    WarningsGatedNotElsewhere("skipRealms32bitWarning");
    var m0: map<string, string> := map[];
    BasicFrame(c, g, m0, "skipRealms32bitWarning");
    var m1 := BasicKeys(c, g, m0);
    VisualFrame(c, g, m1, "skipRealms32bitWarning");
    var m2 := VisualKeys(c, g, m1);
    EffectsFrame(c, g, m2, "skipRealms32bitWarning");
    var m3 := EffectsKeys(c, g, m2);
    RenderingFrame(c, g, m3, "skipRealms32bitWarning");
    var m4 := RenderingKeys(c, g, m3);
    ChatFrame(c, g, m4, "skipRealms32bitWarning");
    var m5 := ChatKeys(c, g, m4);
    InterfaceFrame(c, g, m5, "skipRealms32bitWarning");
    var m6 := InterfaceKeys(c, g, m5);
    WarningsGatedHere(c, g, m6);
    var m7 := WarningsKeys(c, g, m6);
    WorldFrame(c, g, m7, "skipRealms32bitWarning");
    var m8 := WorldKeys(c, g, m7);
    KeyBindsFrame(c, g, m8, "skipRealms32bitWarning");
    var m9 := KeyBindsKeys(c, g, m8);
    ToolbarAndHotbarFrame(c, g, m9, "skipRealms32bitWarning");
    var m10 := ToolbarAndHotbarKeys(c, g, m9);
    VolumeAndSkinFrame(c, g, m10, "skipRealms32bitWarning");
  }

  /** `hideMatchedNames` is in the options map exactly when its gate holds. */
  lemma HideMatchedNamesGate(c: ClientOptions.ClientOptions, g: Gates)
    ensures "hideMatchedNames" in OptionsKeys(c, g) <==> g.after1_16_4Rc1
    ensures "hideMatchedNames" in OptionsKeys(c, g) ==> OptionsKeys(c, g)["hideMatchedNames"] == Text.BoolToString(c.hideMatchedNames)
  {
    WarningsGatedNotElsewhere("hideMatchedNames");
    var m0: map<string, string> := map[];
    BasicFrame(c, g, m0, "hideMatchedNames");
    var m1 := BasicKeys(c, g, m0);
    VisualFrame(c, g, m1, "hideMatchedNames");
    var m2 := VisualKeys(c, g, m1);
    EffectsFrame(c, g, m2, "hideMatchedNames");
    var m3 := EffectsKeys(c, g, m2);
    RenderingFrame(c, g, m3, "hideMatchedNames");
    var m4 := RenderingKeys(c, g, m3);
    ChatFrame(c, g, m4, "hideMatchedNames");
    var m5 := ChatKeys(c, g, m4);
    InterfaceFrame(c, g, m5, "hideMatchedNames");
    var m6 := InterfaceKeys(c, g, m5);
    WarningsGatedHere(c, g, m6);
    var m7 := WarningsKeys(c, g, m6);
    WorldFrame(c, g, m7, "hideMatchedNames");
    var m8 := WorldKeys(c, g, m7);
    KeyBindsFrame(c, g, m8, "hideMatchedNames");
    var m9 := KeyBindsKeys(c, g, m8);
    ToolbarAndHotbarFrame(c, g, m9, "hideMatchedNames");
    var m10 := ToolbarAndHotbarKeys(c, g, m9);
    VolumeAndSkinFrame(c, g, m10, "hideMatchedNames");
  }

  /** `joinedFirstServer` is in the options map exactly when its gate holds. */
  lemma JoinedFirstServerGate(c: ClientOptions.ClientOptions, g: Gates)
    ensures "joinedFirstServer" in OptionsKeys(c, g) <==> g.after1_16_4Rc1
    ensures "joinedFirstServer" in OptionsKeys(c, g) ==> OptionsKeys(c, g)["joinedFirstServer"] == Text.BoolToString(c.joinedServer)
  {
    WarningsGatedNotElsewhere("joinedFirstServer");
    var m0: map<string, string> := map[];
    BasicFrame(c, g, m0, "joinedFirstServer");
    var m1 := BasicKeys(c, g, m0);
    VisualFrame(c, g, m1, "joinedFirstServer");
    var m2 := VisualKeys(c, g, m1);
    EffectsFrame(c, g, m2, "joinedFirstServer");
    var m3 := EffectsKeys(c, g, m2);
    RenderingFrame(c, g, m3, "joinedFirstServer");
    var m4 := RenderingKeys(c, g, m3);
    ChatFrame(c, g, m4, "joinedFirstServer");
    var m5 := ChatKeys(c, g, m4);
    InterfaceFrame(c, g, m5, "joinedFirstServer");
    var m6 := InterfaceKeys(c, g, m5);
    WarningsGatedHere(c, g, m6);
    var m7 := WarningsKeys(c, g, m6);
    WorldFrame(c, g, m7, "joinedFirstServer");
    var m8 := WorldKeys(c, g, m7);
    KeyBindsFrame(c, g, m8, "joinedFirstServer");
    var m9 := KeyBindsKeys(c, g, m8);
    ToolbarAndHotbarFrame(c, g, m9, "joinedFirstServer");
    var m10 := ToolbarAndHotbarKeys(c, g, m9);
    VolumeAndSkinFrame(c, g, m10, "joinedFirstServer");
  }

  /** Each version-gated key of lines 153-162 is in the options map exactly when its gate holds. */
  lemma WarningsGated(c: ClientOptions.ClientOptions, g: Gates)
    ensures "skipMultiplayerWarning" in OptionsKeys(c, g) <==> g.after1_15_2Pre1
    ensures "skipMultiplayerWarning" in OptionsKeys(c, g) ==> OptionsKeys(c, g)["skipMultiplayerWarning"] == Text.BoolToString(c.skipMultiplayerWarning)
    ensures "skipRealms32bitWarning" in OptionsKeys(c, g) <==> g.after1_18_2Pre1
    ensures "skipRealms32bitWarning" in OptionsKeys(c, g) ==> OptionsKeys(c, g)["skipRealms32bitWarning"] == Text.BoolToString(c.skipRealms32BitWarning)
    ensures "hideMatchedNames" in OptionsKeys(c, g) <==> g.after1_16_4Rc1
    ensures "hideMatchedNames" in OptionsKeys(c, g) ==> OptionsKeys(c, g)["hideMatchedNames"] == Text.BoolToString(c.hideMatchedNames)
    ensures "joinedFirstServer" in OptionsKeys(c, g) <==> g.after1_16_4Rc1
    ensures "joinedFirstServer" in OptionsKeys(c, g) ==> OptionsKeys(c, g)["joinedFirstServer"] == Text.BoolToString(c.joinedServer)
  {
    SkipMultiplayerWarningGate(c, g);
    SkipRealms32bitWarningGate(c, g);
    HideMatchedNamesGate(c, g);
    JoinedFirstServerGate(c, g);
  }

  /** Lines 163-170 of `write_keys` write each version-gated key exactly when its gate holds. */
  lemma WorldGatedHere(c: ClientOptions.ClientOptions, g: Gates, m: map<string, string>)
    ensures "showAutosaveIndicator" in WorldKeys(c, g, m) <==> (g.after21w42a) || "showAutosaveIndicator" in m
    ensures g.after21w42a ==> WorldKeys(c, g, m)["showAutosaveIndicator"] == Text.BoolToString(c.showAutosaveIndicator)
    ensures "allowServerListing" in WorldKeys(c, g, m) <==> (g.after1_18Pre2) || "allowServerListing" in m
    ensures g.after1_18Pre2 ==> WorldKeys(c, g, m)["allowServerListing"] == Text.BoolToString(c.allowServerListing)
  {
  }

  /** No other section names a gated key of lines 163-170. */
  lemma WorldGatedNotElsewhere(k: string)
    requires k in {"showAutosaveIndicator", "allowServerListing"}
    ensures k !in BasicNames
    ensures k !in VisualNames
    ensures k !in EffectsNames
    ensures k !in RenderingNames
    ensures k !in ChatNames
    ensures k !in InterfaceNames
    ensures k !in WarningsNames
    ensures k !in KeyBindsNames
    ensures k !in ToolbarAndHotbarNames
    ensures k !in VolumeAndSkinNames
  {
  }

  /** `showAutosaveIndicator` is in the options map exactly when its gate holds. */
  lemma ShowAutosaveIndicatorGate(c: ClientOptions.ClientOptions, g: Gates)
    ensures "showAutosaveIndicator" in OptionsKeys(c, g) <==> g.after21w42a
    ensures "showAutosaveIndicator" in OptionsKeys(c, g) ==> OptionsKeys(c, g)["showAutosaveIndicator"] == Text.BoolToString(c.showAutosaveIndicator)
  {
    WorldGatedNotElsewhere("showAutosaveIndicator");
    var m0: map<string, string> := map[];
    BasicFrame(c, g, m0, "showAutosaveIndicator");
    var m1 := BasicKeys(c, g, m0);
    VisualFrame(c, g, m1, "showAutosaveIndicator");
    var m2 := VisualKeys(c, g, m1);
    EffectsFrame(c, g, m2, "showAutosaveIndicator");
    var m3 := EffectsKeys(c, g, m2);
    RenderingFrame(c, g, m3, "showAutosaveIndicator");
    var m4 := RenderingKeys(c, g, m3);
    ChatFrame(c, g, m4, "showAutosaveIndicator");
    var m5 := ChatKeys(c, g, m4);
    InterfaceFrame(c, g, m5, "showAutosaveIndicator");
    var m6 := InterfaceKeys(c, g, m5);
    WarningsFrame(c, g, m6, "showAutosaveIndicator");
    var m7 := WarningsKeys(c, g, m6);
    WorldGatedHere(c, g, m7);
    var m8 := WorldKeys(c, g, m7);
    KeyBindsFrame(c, g, m8, "showAutosaveIndicator");
    var m9 := KeyBindsKeys(c, g, m8);
    ToolbarAndHotbarFrame(c, g, m9, "showAutosaveIndicator");
    var m10 := ToolbarAndHotbarKeys(c, g, m9);
    VolumeAndSkinFrame(c, g, m10, "showAutosaveIndicator");
  }

  /** `allowServerListing` is in the options map exactly when its gate holds. */
  lemma AllowServerListingGate(c: ClientOptions.ClientOptions, g: Gates)
    ensures "allowServerListing" in OptionsKeys(c, g) <==> g.after1_18Pre2
    ensures "allowServerListing" in OptionsKeys(c, g) ==> OptionsKeys(c, g)["allowServerListing"] == Text.BoolToString(c.allowServerListing)
  {
    WorldGatedNotElsewhere("allowServerListing");
    var m0: map<string, string> := map[];
    BasicFrame(c, g, m0, "allowServerListing");
    var m1 := BasicKeys(c, g, m0);
    VisualFrame(c, g, m1, "allowServerListing");
    var m2 := VisualKeys(c, g, m1);
    EffectsFrame(c, g, m2, "allowServerListing");
    var m3 := EffectsKeys(c, g, m2);
    RenderingFrame(c, g, m3, "allowServerListing");
    var m4 := RenderingKeys(c, g, m3);
    ChatFrame(c, g, m4, "allowServerListing");
    var m5 := ChatKeys(c, g, m4);
    InterfaceFrame(c, g, m5, "allowServerListing");
    var m6 := InterfaceKeys(c, g, m5);
    WarningsFrame(c, g, m6, "allowServerListing");
    var m7 := WarningsKeys(c, g, m6);
    WorldGatedHere(c, g, m7);
    var m8 := WorldKeys(c, g, m7);
    KeyBindsFrame(c, g, m8, "allowServerListing");
    var m9 := KeyBindsKeys(c, g, m8);
    ToolbarAndHotbarFrame(c, g, m9, "allowServerListing");
    var m10 := ToolbarAndHotbarKeys(c, g, m9);
    VolumeAndSkinFrame(c, g, m10, "allowServerListing");
  }

  /** Each version-gated key of lines 163-170 is in the options map exactly when its gate holds. */
  lemma WorldGated(c: ClientOptions.ClientOptions, g: Gates)
    ensures "showAutosaveIndicator" in OptionsKeys(c, g) <==> g.after21w42a
    ensures "showAutosaveIndicator" in OptionsKeys(c, g) ==> OptionsKeys(c, g)["showAutosaveIndicator"] == Text.BoolToString(c.showAutosaveIndicator)
    ensures "allowServerListing" in OptionsKeys(c, g) <==> g.after1_18Pre2
    ensures "allowServerListing" in OptionsKeys(c, g) ==> OptionsKeys(c, g)["allowServerListing"] == Text.BoolToString(c.allowServerListing)
  {
    ShowAutosaveIndicatorGate(c, g);
    AllowServerListingGate(c, g);
  }

  /** Lines 194-207 of `write_keys` write each version-gated key exactly when its gate holds. */
  lemma ToolbarAndHotbarGatedHere(c: ClientOptions.ClientOptions, g: Gates, m: map<string, string>)
    ensures "key_key.saveToolbarActivator" in ToolbarAndHotbarKeys(c, g, m) <==> (g.after17w06a) || "key_key.saveToolbarActivator" in m
    ensures g.after17w06a ==> ToolbarAndHotbarKeys(c, g, m)["key_key.saveToolbarActivator"] == c.control.keys.saveToolbar
    ensures "key_key.loadToolbarActivator" in ToolbarAndHotbarKeys(c, g, m) <==> (g.after17w06a) || "key_key.loadToolbarActivator" in m
    ensures g.after17w06a ==> ToolbarAndHotbarKeys(c, g, m)["key_key.loadToolbarActivator"] == c.control.keys.loadToolbar
    ensures "key_key.advancements" in ToolbarAndHotbarKeys(c, g, m) <==> (g.after17w06a) || "key_key.advancements" in m
    ensures g.after17w06a ==> ToolbarAndHotbarKeys(c, g, m)["key_key.advancements"] == c.control.keys.advancements
  {
  }

  /** No other section names a gated key of lines 194-207. */
  lemma ToolbarAndHotbarGatedNotElsewhere(k: string)
    requires k in {"key_key.saveToolbarActivator", "key_key.loadToolbarActivator", "key_key.advancements"}
    ensures k !in BasicNames
    ensures k !in VisualNames
    ensures k !in EffectsNames
    ensures k !in RenderingNames
    ensures k !in ChatNames
    ensures k !in InterfaceNames
    ensures k !in WarningsNames
    ensures k !in WorldNames
    ensures k !in KeyBindsNames
    ensures k !in VolumeAndSkinNames
  {
  }

  /** `key_key.saveToolbarActivator` is in the options map exactly when its gate holds. */
  lemma KeyKeySaveToolbarActivatorGate(c: ClientOptions.ClientOptions, g: Gates)
    ensures "key_key.saveToolbarActivator" in OptionsKeys(c, g) <==> g.after17w06a
    ensures "key_key.saveToolbarActivator" in OptionsKeys(c, g) ==> OptionsKeys(c, g)["key_key.saveToolbarActivator"] == c.control.keys.saveToolbar
  {
    ToolbarAndHotbarGatedNotElsewhere("key_key.saveToolbarActivator");
    var m0: map<string, string> := map[];
    BasicFrame(c, g, m0, "key_key.saveToolbarActivator");
    var m1 := BasicKeys(c, g, m0);
    VisualFrame(c, g, m1, "key_key.saveToolbarActivator");
    var m2 := VisualKeys(c, g, m1);
    EffectsFrame(c, g, m2, "key_key.saveToolbarActivator");
    var m3 := EffectsKeys(c, g, m2);
    RenderingFrame(c, g, m3, "key_key.saveToolbarActivator");
    var m4 := RenderingKeys(c, g, m3);
    ChatFrame(c, g, m4, "key_key.saveToolbarActivator");
    var m5 := ChatKeys(c, g, m4);
    InterfaceFrame(c, g, m5, "key_key.saveToolbarActivator");
    var m6 := InterfaceKeys(c, g, m5);
    WarningsFrame(c, g, m6, "key_key.saveToolbarActivator");
    var m7 := WarningsKeys(c, g, m6);
    WorldFrame(c, g, m7, "key_key.saveToolbarActivator");
    var m8 := WorldKeys(c, g, m7);
    KeyBindsFrame(c, g, m8, "key_key.saveToolbarActivator");
    var m9 := KeyBindsKeys(c, g, m8);
    ToolbarAndHotbarGatedHere(c, g, m9);
    var m10 := ToolbarAndHotbarKeys(c, g, m9);
    VolumeAndSkinFrame(c, g, m10, "key_key.saveToolbarActivator");
  }

  /** `key_key.loadToolbarActivator` is in the options map exactly when its gate holds. */
  lemma KeyKeyLoadToolbarActivatorGate(c: ClientOptions.ClientOptions, g: Gates)
    ensures "key_key.loadToolbarActivator" in OptionsKeys(c, g) <==> g.after17w06a
    ensures "key_key.loadToolbarActivator" in OptionsKeys(c, g) ==> OptionsKeys(c, g)["key_key.loadToolbarActivator"] == c.control.keys.loadToolbar
  {
    ToolbarAndHotbarGatedNotElsewhere("key_key.loadToolbarActivator");
    var m0: map<string, string> := map[];
    BasicFrame(c, g, m0, "key_key.loadToolbarActivator");
    var m1 := BasicKeys(c, g, m0);
    VisualFrame(c, g, m1, "key_key.loadToolbarActivator");
    var m2 := VisualKeys(c, g, m1);
    EffectsFrame(c, g, m2, "key_key.loadToolbarActivator");
    var m3 := EffectsKeys(c, g, m2);
    RenderingFrame(c, g, m3, "key_key.loadToolbarActivator");
    var m4 := RenderingKeys(c, g, m3);
    ChatFrame(c, g, m4, "key_key.loadToolbarActivator");
    var m5 := ChatKeys(c, g, m4);
    InterfaceFrame(c, g, m5, "key_key.loadToolbarActivator");
    var m6 := InterfaceKeys(c, g, m5);
    WarningsFrame(c, g, m6, "key_key.loadToolbarActivator");
    var m7 := WarningsKeys(c, g, m6);
    WorldFrame(c, g, m7, "key_key.loadToolbarActivator");
    var m8 := WorldKeys(c, g, m7);
    KeyBindsFrame(c, g, m8, "key_key.loadToolbarActivator");
    var m9 := KeyBindsKeys(c, g, m8);
    ToolbarAndHotbarGatedHere(c, g, m9);
    var m10 := ToolbarAndHotbarKeys(c, g, m9);
    VolumeAndSkinFrame(c, g, m10, "key_key.loadToolbarActivator");
  }

  /** `key_key.advancements` is in the options map exactly when its gate holds. */
  lemma KeyKeyAdvancementsGate(c: ClientOptions.ClientOptions, g: Gates)
    ensures "key_key.advancements" in OptionsKeys(c, g) <==> g.after17w06a
    ensures "key_key.advancements" in OptionsKeys(c, g) ==> OptionsKeys(c, g)["key_key.advancements"] == c.control.keys.advancements
  {
    ToolbarAndHotbarGatedNotElsewhere("key_key.advancements");
    var m0: map<string, string> := map[];
    BasicFrame(c, g, m0, "key_key.advancements");
    var m1 := BasicKeys(c, g, m0);
    VisualFrame(c, g, m1, "key_key.advancements");
    var m2 := VisualKeys(c, g, m1);
    EffectsFrame(c, g, m2, "key_key.advancements");
    var m3 := EffectsKeys(c, g, m2);
    RenderingFrame(c, g, m3, "key_key.advancements");
    var m4 := RenderingKeys(c, g, m3);
    ChatFrame(c, g, m4, "key_key.advancements");
    var m5 := ChatKeys(c, g, m4);
    InterfaceFrame(c, g, m5, "key_key.advancements");
    var m6 := InterfaceKeys(c, g, m5);
    WarningsFrame(c, g, m6, "key_key.advancements");
    var m7 := WarningsKeys(c, g, m6);
    WorldFrame(c, g, m7, "key_key.advancements");
    var m8 := WorldKeys(c, g, m7);
    KeyBindsFrame(c, g, m8, "key_key.advancements");
    var m9 := KeyBindsKeys(c, g, m8);
    ToolbarAndHotbarGatedHere(c, g, m9);
    var m10 := ToolbarAndHotbarKeys(c, g, m9);
    VolumeAndSkinFrame(c, g, m10, "key_key.advancements");
  }

  /** Each version-gated key of lines 194-207 is in the options map exactly when its gate holds. */
  lemma ToolbarAndHotbarGated(c: ClientOptions.ClientOptions, g: Gates)
    ensures "key_key.saveToolbarActivator" in OptionsKeys(c, g) <==> g.after17w06a
    ensures "key_key.saveToolbarActivator" in OptionsKeys(c, g) ==> OptionsKeys(c, g)["key_key.saveToolbarActivator"] == c.control.keys.saveToolbar
    ensures "key_key.loadToolbarActivator" in OptionsKeys(c, g) <==> g.after17w06a
    ensures "key_key.loadToolbarActivator" in OptionsKeys(c, g) ==> OptionsKeys(c, g)["key_key.loadToolbarActivator"] == c.control.keys.loadToolbar
    ensures "key_key.advancements" in OptionsKeys(c, g) <==> g.after17w06a
    ensures "key_key.advancements" in OptionsKeys(c, g) ==> OptionsKeys(c, g)["key_key.advancements"] == c.control.keys.advancements
  {
    KeyKeySaveToolbarActivatorGate(c, g);
    KeyKeyLoadToolbarActivatorGate(c, g);
    KeyKeyAdvancementsGate(c, g);
  }

  /** Lines 209-233 of `write_keys` write each version-gated key exactly when its gate holds. */
  lemma VolumeAndSkinGatedHere(c: ClientOptions.ClientOptions, g: Gates, m: map<string, string>)
    ensures "allowBlockAlternatives" in VolumeAndSkinKeys(c, g, m) <==> (g.after14w28a && g.before15w31a) || "allowBlockAlternatives" in m
    ensures g.after14w28a && g.before15w31a ==> VolumeAndSkinKeys(c, g, m)["allowBlockAlternatives"] == Text.BoolToString(c.video.allowBlockAlternatives)
    ensures "fullscreenResolution" in VolumeAndSkinKeys(c, g, m) <==> (c.video.fullscreenResolution.Some?) || "fullscreenResolution" in m
    ensures c.video.fullscreenResolution.Some? ==> VolumeAndSkinKeys(c, g, m)["fullscreenResolution"] == WriteFullscreenResolution(c.video.fullscreenResolution.value)
  {
  }

  /** No other section names a gated key of lines 209-233. */
  lemma VolumeAndSkinGatedNotElsewhere(k: string)
    requires k in {"allowBlockAlternatives", "fullscreenResolution"}
    ensures k !in BasicNames
    ensures k !in VisualNames
    ensures k !in EffectsNames
    ensures k !in RenderingNames
    ensures k !in ChatNames
    ensures k !in InterfaceNames
    ensures k !in WarningsNames
    ensures k !in WorldNames
    ensures k !in KeyBindsNames
    ensures k !in ToolbarAndHotbarNames
  {
  }

  /** `allowBlockAlternatives` is in the options map exactly when its gate holds. */
  lemma AllowBlockAlternativesGate(c: ClientOptions.ClientOptions, g: Gates)
    ensures "allowBlockAlternatives" in OptionsKeys(c, g) <==> g.after14w28a && g.before15w31a
    ensures "allowBlockAlternatives" in OptionsKeys(c, g) ==> OptionsKeys(c, g)["allowBlockAlternatives"] == Text.BoolToString(c.video.allowBlockAlternatives)
  {
    VolumeAndSkinGatedNotElsewhere("allowBlockAlternatives");
    var m0: map<string, string> := map[];
    BasicFrame(c, g, m0, "allowBlockAlternatives");
    var m1 := BasicKeys(c, g, m0);
    VisualFrame(c, g, m1, "allowBlockAlternatives");
    var m2 := VisualKeys(c, g, m1);
    EffectsFrame(c, g, m2, "allowBlockAlternatives");
    var m3 := EffectsKeys(c, g, m2);
    RenderingFrame(c, g, m3, "allowBlockAlternatives");
    var m4 := RenderingKeys(c, g, m3);
    ChatFrame(c, g, m4, "allowBlockAlternatives");
    var m5 := ChatKeys(c, g, m4);
    InterfaceFrame(c, g, m5, "allowBlockAlternatives");
    var m6 := InterfaceKeys(c, g, m5);
    WarningsFrame(c, g, m6, "allowBlockAlternatives");
    var m7 := WarningsKeys(c, g, m6);
    WorldFrame(c, g, m7, "allowBlockAlternatives");
    var m8 := WorldKeys(c, g, m7);
    KeyBindsFrame(c, g, m8, "allowBlockAlternatives");
    var m9 := KeyBindsKeys(c, g, m8);
    ToolbarAndHotbarFrame(c, g, m9, "allowBlockAlternatives");
    var m10 := ToolbarAndHotbarKeys(c, g, m9);
    VolumeAndSkinGatedHere(c, g, m10);
  }

  /** `fullscreenResolution` is in the options map exactly when its gate holds. */
  lemma FullscreenResolutionGate(c: ClientOptions.ClientOptions, g: Gates)
    ensures "fullscreenResolution" in OptionsKeys(c, g) <==> c.video.fullscreenResolution.Some?
    ensures "fullscreenResolution" in OptionsKeys(c, g) ==> OptionsKeys(c, g)["fullscreenResolution"] == WriteFullscreenResolution(c.video.fullscreenResolution.value)
  {
    VolumeAndSkinGatedNotElsewhere("fullscreenResolution");
    var m0: map<string, string> := map[];
    BasicFrame(c, g, m0, "fullscreenResolution");
    var m1 := BasicKeys(c, g, m0);
    VisualFrame(c, g, m1, "fullscreenResolution");
    var m2 := VisualKeys(c, g, m1);
    EffectsFrame(c, g, m2, "fullscreenResolution");
    var m3 := EffectsKeys(c, g, m2);
    RenderingFrame(c, g, m3, "fullscreenResolution");
    var m4 := RenderingKeys(c, g, m3);
    ChatFrame(c, g, m4, "fullscreenResolution");
    var m5 := ChatKeys(c, g, m4);
    InterfaceFrame(c, g, m5, "fullscreenResolution");
    var m6 := InterfaceKeys(c, g, m5);
    WarningsFrame(c, g, m6, "fullscreenResolution");
    var m7 := WarningsKeys(c, g, m6);
    WorldFrame(c, g, m7, "fullscreenResolution");
    var m8 := WorldKeys(c, g, m7);
    KeyBindsFrame(c, g, m8, "fullscreenResolution");
    var m9 := KeyBindsKeys(c, g, m8);
    ToolbarAndHotbarFrame(c, g, m9, "fullscreenResolution");
    var m10 := ToolbarAndHotbarKeys(c, g, m9);
    VolumeAndSkinGatedHere(c, g, m10);
  }

  /** Each version-gated key of lines 209-233 is in the options map exactly when its gate holds. */
  lemma VolumeAndSkinGated(c: ClientOptions.ClientOptions, g: Gates)
    ensures "allowBlockAlternatives" in OptionsKeys(c, g) <==> g.after14w28a && g.before15w31a
    ensures "allowBlockAlternatives" in OptionsKeys(c, g) ==> OptionsKeys(c, g)["allowBlockAlternatives"] == Text.BoolToString(c.video.allowBlockAlternatives)
    ensures "fullscreenResolution" in OptionsKeys(c, g) <==> c.video.fullscreenResolution.Some?
    ensures "fullscreenResolution" in OptionsKeys(c, g) ==> OptionsKeys(c, g)["fullscreenResolution"] == WriteFullscreenResolution(c.video.fullscreenResolution.value)
  {
    AllowBlockAlternativesGate(c, g);
    FullscreenResolutionGate(c, g);
  }

  /** Every key no version test or option guards. */
  const AlwaysWritten: set<string> :=
    BasicAlways + VisualAlways + EffectsAlways + RenderingAlways + ChatAlways + InterfaceAlways
    + WarningsAlways + WorldAlways + KeyBindsAlways + ToolbarAndHotbarAlways + VolumeAndSkinAlways

  /** The ungated keys are in the map whatever the options and the version. */
  lemma UngatedPresent(c: ClientOptions.ClientOptions, g: Gates)
    ensures AlwaysWritten <= OptionsKeys(c, g).Keys
    ensures "autoJump" in OptionsKeys(c, g) && "key_key.hotbar.9" in OptionsKeys(c, g)
    ensures "soundCategory_master" in OptionsKeys(c, g) && "modelPart_hat" in OptionsKeys(c, g)
  {
    var m: map<string, string> := map[];
    BasicGrows(c, g, m);
    var m1 := BasicKeys(c, g, m);
    VisualGrows(c, g, m1);
    var m2 := VisualKeys(c, g, m1);
    EffectsGrows(c, g, m2);
    var m3 := EffectsKeys(c, g, m2);
    RenderingGrows(c, g, m3);
    var m4 := RenderingKeys(c, g, m3);
    ChatGrows(c, g, m4);
    var m5 := ChatKeys(c, g, m4);
    InterfaceGrows(c, g, m5);
    var m6 := InterfaceKeys(c, g, m5);
    WarningsGrows(c, g, m6);
    var m7 := WarningsKeys(c, g, m6);
    WorldGrows(c, g, m7);
    var m8 := WorldKeys(c, g, m7);
    KeyBindsGrows(c, g, m8);
    var m9 := KeyBindsKeys(c, g, m8);
    ToolbarAndHotbarGrows(c, g, m9);
    var m10 := ToolbarAndHotbarKeys(c, g, m9);
    VolumeAndSkinGrows(c, g, m10);
  }

  /** The sections after the rendering one leave a key they do not name alone. */
  lemma AfterRenderingFrame(c: ClientOptions.ClientOptions, g: Gates, m: map<string, string>, k: string)
    requires k !in ChatNames && k !in InterfaceNames && k !in WarningsNames && k !in WorldNames
    requires k !in KeyBindsNames && k !in ToolbarAndHotbarNames && k !in VolumeAndSkinNames
    ensures var r := VolumeAndSkinKeys(c, g, ToolbarAndHotbarKeys(c, g, KeyBindsKeys(c, g,
              WorldKeys(c, g, WarningsKeys(c, g, InterfaceKeys(c, g, ChatKeys(c, g, m)))))));
            (k in r <==> k in m) && (k in m ==> r[k] == m[k])
  {
    ChatFrame(c, g, m, k);
    var m1 := ChatKeys(c, g, m);
    InterfaceFrame(c, g, m1, k);
    var m2 := InterfaceKeys(c, g, m1);
    WarningsFrame(c, g, m2, k);
    var m3 := WarningsKeys(c, g, m2);
    WorldFrame(c, g, m3, k);
    var m4 := WorldKeys(c, g, m3);
    KeyBindsFrame(c, g, m4, k);
    var m5 := KeyBindsKeys(c, g, m4);
    ToolbarAndHotbarFrame(c, g, m5, k);
    var m6 := ToolbarAndHotbarKeys(c, g, m5);
    VolumeAndSkinFrame(c, g, m6, k);
  }

  /** The rendering section writes the resource pack lists and the language last. */
  lemma RenderingFixed(c: ClientOptions.ClientOptions, g: Gates, m: map<string, string>)
    ensures "incompatibleResourcePacks" in RenderingKeys(c, g, m) && RenderingKeys(c, g, m)["incompatibleResourcePacks"] == "[]"
    ensures "resourcePacks" in RenderingKeys(c, g, m) && RenderingKeys(c, g, m)["resourcePacks"] == ResourcePacksText(c.resourcePacks)
    ensures "lang" in RenderingKeys(c, g, m) && RenderingKeys(c, g, m)["lang"] == c.language
  {
  }

  /** No later section names the resource pack keys or the language. */
  lemma FixedNotLater(k: string)
    requires k in {"incompatibleResourcePacks", "resourcePacks", "lang"}
    ensures k !in ChatNames && k !in InterfaceNames && k !in WarningsNames && k !in WorldNames
    ensures k !in KeyBindsNames && k !in ToolbarAndHotbarNames && k !in VolumeAndSkinNames
  {
  }

  /** The resource pack lists and the language are always written, with these values. */
  lemma FixedValues(c: ClientOptions.ClientOptions, g: Gates)
    ensures "incompatibleResourcePacks" in OptionsKeys(c, g) && OptionsKeys(c, g)["incompatibleResourcePacks"] == "[]"
    ensures "resourcePacks" in OptionsKeys(c, g) && OptionsKeys(c, g)["resourcePacks"] == ResourcePacksText(c.resourcePacks)
    ensures "lang" in OptionsKeys(c, g) && OptionsKeys(c, g)["lang"] == c.language
  {
    var m := RenderingKeys(c, g, EffectsKeys(c, g, VisualKeys(c, g, BasicKeys(c, g, map[]))));
    RenderingFixed(c, g, EffectsKeys(c, g, VisualKeys(c, g, BasicKeys(c, g, map[]))));
    FixedNotLater("incompatibleResourcePacks");
    FixedNotLater("resourcePacks");
    FixedNotLater("lang");
    AfterRenderingFrame(c, g, m, "incompatibleResourcePacks");
    AfterRenderingFrame(c, g, m, "resourcePacks");
    AfterRenderingFrame(c, g, m, "lang");
  }
}
