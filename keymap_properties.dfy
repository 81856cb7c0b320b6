/**
 * What the keymap's callbacks do, stated over all states and inputs.
 */
module KeymapProperties {
  import opened Qmk
  import opened Definitions
  import opened UserConfig
  import opened Display
  import opened Transitions

  /** Nothing but the layer mask and the driver calls changed. */
  predicate OnlyLayersChanged(s: State, r: State)
  {
    r.mods == s.mods && r.keys == s.keys && r.config == s.config && r.stored == s.stored
  }

  /** The modifiers outside Hyper are as they were. */
  predicate OtherModsKept(s: State, r: State)
  {
    r.mods & !HYPR == s.mods & !HYPR
  }

  // ---------------------------------------------------------------------------
  // Gaming-layer tap dance.

  /**
   * A double (or longer) tap flips the gaming layer and no other layer, emits
   * no key and leaves the modifiers alone; the underglow follows the new layer.
   */
  lemma GamingDoubleTapFlipsGaming(s: State, count: uint8, pressed: bool)
    requires count >= 2
    ensures var r := GamingToggleFinished(s, count, pressed);
      (forall l: nat :: LayerOn(r.layers, l) <==> (LayerOn(s.layers, l) != (l == LAYER_GAMING)))
      && OnlyLayersChanged(s, r)
      && r.rgb == s.rgb + LayerChangeCalls(s.config, r.layers)
  {
  }

  /** On a double tap the callback is `layer_invert(LAYER_GAMING)`, whose new mask is the old one with the gaming bit flipped. */
  lemma DoubleTapInverts(s: State, count: uint8, pressed: bool)
    requires count >= 2
    ensures GamingToggleFinished(s, count, pressed) == LayerInvert(s, LAYER_GAMING)
    ensures LayerInvert(s, LAYER_GAMING).layers == s.layers ^ LayerBit(LAYER_GAMING)
  {
  }

  /** Two double taps give back the layer mask the first one started from. */
  lemma GamingDoubleTapTwice(s: State, count: uint8, pressed: bool)
    requires count >= 2
    ensures GamingToggleFinished(GamingToggleFinished(s, count, pressed), count, pressed).layers == s.layers
  {
  }


  /**
   * A single tap sends exactly one Space while all four left modifiers are
   * held; afterwards those four are released, the other modifiers are as they
   * were, and the layers and driver calls are untouched.
   */
  lemma GamingSingleTapSendsHyperSpace(s: State, count: uint8)
    requires count < 2
    ensures var r := GamingToggleFinished(s, count, false);
      |r.keys| == |s.keys| + 1 && r.keys[..|s.keys|] == s.keys
      && r.keys[|s.keys|].Tapped? && r.keys[|s.keys|].keycode == KC_SPACE
      && r.keys[|s.keys|].held & HYPR == HYPR
      && r.keys[|s.keys|].held & !HYPR == s.mods & !HYPR
      && r.mods & HYPR == 0 && OtherModsKept(s, r)
      && r.layers == s.layers && r.rgb == s.rgb && r.config == s.config && r.stored == s.stored
  {
  }


  /** The indicator shows every letter for the Space that a single tap sends. */
  lemma SingleTapShowsHyper(s: State, count: uint8)
    requires count < 2
    ensures var r := GamingToggleFinished(s, count, false);
      ModsIndicator(r.keys[|s.keys|].held) == INDICATOR_LETTERS
  {
  }

  /** A single press still held when the dance ends only adds Hyper to the modifiers. */
  lemma GamingHoldRegistersHyper(s: State, count: uint8)
    requires count < 2
    ensures var r := GamingToggleFinished(s, count, true);
      r.mods & HYPR == HYPR && OtherModsKept(s, r)
      && r == s.(mods := r.mods)
  {
  }

  /** The reset clears the Hyper bits when the dance was one press still held, and does nothing else ever. */
  lemma GamingResetClearsHyperIff(s: State, count: uint8, pressed: bool)
    ensures var r := GamingToggleReset(s, count, pressed);
      (count == 1 && pressed ==> r.mods & HYPR == 0 && OtherModsKept(s, r) && r == s.(mods := r.mods))
      && (!(count == 1 && pressed) ==> r == s)
      && r.layers == s.layers
  {
  }


  /**
   * A hold whose reset still sees the key pressed leaves the modifiers as they
   * were outside Hyper and with Hyper released; nothing else changes.
   */
  lemma GamingHoldThenReset(s: State)
    ensures var r := GamingToggleReset(GamingToggleFinished(s, 1, true), 1, true);
      r == s.(mods := s.mods & !HYPR)
  {
  }

  // ---------------------------------------------------------------------------
  // Return-to-base tap dance.

  /** A double tap switches every layer off, so the base layer is the highest; a single tap changes nothing. */
  lemma ToBaseDoubleTapClears(s: State, count: uint8)
    ensures var r := ToBaseFinished(s, count);
      (count >= 2 ==> r.layers == 0 && HighestLayer(r.layers) == LAYER_BASE
                      && (forall l: nat :: !LayerOn(r.layers, l))
                      && OnlyLayersChanged(s, r)
                      && r.rgb == s.rgb + LayerChangeCalls(s.config, 0))
      && (count < 2 ==> r == s)
  {
  }

  // ---------------------------------------------------------------------------
  // Layer hook.

  /**
   * The layer hook never alters the layer mask it is given; it is silent while
   * RGB is disabled and otherwise sets the colour of the new highest layer.
   */
  lemma LayerHookIsIdentity(s: State, state: bv32)
    ensures LayerStateSet(s, state).layers == state
    ensures !RgbEnabled(s.config) ==> LayerStateSet(s, state) == s.(layers := state)
    ensures RgbEnabled(s.config) ==>
      LayerStateSet(s, state) == s.(layers := state, rgb := s.rgb + [RgbEnableNoEeprom, RgbSetHsv(LayerColour(HighestLayer(state)))])
  {
  }

  // ---------------------------------------------------------------------------
  // The persisted RGB toggle.

  /**
   * Pressing RGB_TOG_EE flips `rgb_enabled` and no other config bit, saves the
   * new word, switches the underglow to match (to the colour of the highest
   * layer when it comes on), and stops the framework from handling the key.
   */
  lemma RgbTogglePress(s: State)
    ensures var (r, goOn) := ProcessRecordUser(s, RGB_TOG_EE, true);
      !goOn
      && RgbEnabled(r.config) == !RgbEnabled(s.config)
      && r.config & !RGB_ENABLED_BIT == s.config & !RGB_ENABLED_BIT
      && r.stored == r.config
      && r.layers == s.layers && r.mods == s.mods && r.keys == s.keys
      && r.rgb == s.rgb + (if RgbEnabled(r.config)
                           then [RgbEnable, RgbSetHsv(LayerColour(HighestLayer(s.layers)))]
                           else [RgbDisable])
  {
  }

  /** Releasing RGB_TOG_EE changes nothing, and the framework does not see the release either. */
  lemma RgbToggleRelease(s: State)
    ensures ProcessRecordUser(s, RGB_TOG_EE, false) == (s, false)
  {
  }

  /** Two presses give back the original config word, and that word is what EEPROM then holds. */
  lemma RgbToggleTwice(s: State)
    ensures var r := ProcessRecordUser(ProcessRecordUser(s, RGB_TOG_EE, true).0, RGB_TOG_EE, true).0;
      r.config == s.config && r.stored == s.config
  {
  }

  /** Every keycode other than RGB_TOG_EE, TMUX included, is passed on to the framework with the config untouched. */
  lemma OtherKeysPassThrough(s: State, keycode: uint16, pressed: bool)
    requires keycode != RGB_TOG_EE
    ensures var (r, goOn) := ProcessRecordUser(s, keycode, pressed);
      goOn && r.config == s.config && r.stored == s.stored
      && r.layers == s.layers && r.mods == s.mods && r.rgb == s.rgb
      && r.keys == s.keys + (if keycode == TMUX && pressed then [TmuxMacro] else [])
  {
  }

  /**
   * Start-up loads the EEPROM word as the config and sets up the underglow
   * from it: static mode in the base layer's colour when it says RGB is on,
   * off otherwise.  Nothing else changes.
   */
  lemma BootFollowsStoredWord(s: State)
    ensures var r := KeyboardPostInitUser(s);
      r.config == s.stored && r.stored == s.stored
      && r.layers == s.layers && r.mods == s.mods && r.keys == s.keys
      && r.rgb == s.rgb + (if RgbEnabled(s.stored)
                           then [RgbEnable, RgbMode(RGBLIGHT_MODE_STATIC_LIGHT), RgbSetHsv(LayerColour(LAYER_BASE))]
                           else [RgbDisable])
  {
  }

  /** A toggle survives a power cycle: the config loaded at start-up is the one the last press saved. */
  lemma RgbToggleSurvivesPowerCycle(s: State)
    ensures var r := ProcessRecordUser(s, RGB_TOG_EE, true).0;
      var boot := KeyboardPostInitUser(PowerCycle(r));
      boot.config == r.config && RgbEnabled(boot.config) == !RgbEnabled(s.config)
  {
  }

  /** The defaults saved by `eeconfig_init_user`: only the RGB bit set, so RGB reads back as enabled. */
  lemma ConfigInitDefaults(s: State)
    ensures var r := EeconfigInitUser(s);
      r.stored == RGB_ENABLED_BIT && r.config == r.stored && RgbEnabled(r.config)
      && r.layers == s.layers && r.mods == s.mods && r.keys == s.keys && r.rgb == s.rgb
  {
  }

  /** After the defaults are saved, the next start-up turns the underglow on in the base layer's colour. */
  lemma InitThenBootLightsBase(s: State)
    ensures var r := KeyboardPostInitUser(PowerCycle(EeconfigInitUser(s)));
      RgbEnabled(r.config)
      && r.rgb == [RgbEnable, RgbMode(RGBLIGHT_MODE_STATIC_LIGHT), RgbSetHsv(LayerColour(LAYER_BASE))]
  {
  }
}
