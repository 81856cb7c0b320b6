/**
 * The keymap's callbacks as functions from the state they see to the state
 * they leave.  The state is the part of the firmware the callbacks read or
 * change: the layer mask, the modifier mask, the key output so far, the
 * keymap's config word, the user word kept in EEPROM and the calls made to the
 * underglow driver so far.  The framework operations the callbacks use
 * (`layer_invert`, `register_mods`, `tap_code`, ...) are functions here too,
 * and each callback is written in terms of them as the keymap writes it.
 */
module Transitions {
  import opened Qmk
  import opened Definitions
  import opened UserConfig
  import opened Display

  /** Key output: one tapped key with the modifiers held at the time, or the TMUX macro. */
  datatype KeyEvent =
    | Tapped(keycode: uint16, held: bv8)
    | TmuxMacro

  /** One call into the underglow driver. */
  datatype RgbCall =
    | RgbEnable
    | RgbDisable
    | RgbEnableNoEeprom
    | RgbMode(mode: nat)
    | RgbSetHsv(colour: Hsv)

  const RGBLIGHT_MODE_STATIC_LIGHT: nat := 1

  datatype State = State(
    layers: bv32,         // layer_state
    mods: bv8,            // the modifiers registered, as get_mods() reports them
    keys: seq<KeyEvent>,  // key output, oldest first
    config: bv32,         // user_config.raw
    stored: bv32,         // the user word in EEPROM
    rgb: seq<RgbCall>)    // underglow driver calls, oldest first

  // ---------------------------------------------------------------------------
  // Framework operations.

  /** `register_mods(m)`: the bits of `m` are added to the modifier mask. */
  function RegisterMods(s: State, m: bv8): (r: State)
    ensures r.mods & m == m && r.mods & !m == s.mods & !m
    ensures r == s.(mods := r.mods)
  {
    s.(mods := s.mods | m)
  }

  /** `unregister_mods(m)`: the bits of `m` are removed from the modifier mask. */
  function UnregisterMods(s: State, m: bv8): (r: State)
    ensures r.mods & m == 0 && r.mods & !m == s.mods & !m
    ensures r == s.(mods := r.mods)
  {
    s.(mods := s.mods & !m)
  }

  /** `tap_code(kc)`: `kc` is pressed and released under the current modifiers. */
  function TapCode(s: State, kc: uint16): (r: State)
    ensures |r.keys| == |s.keys| + 1 && r.keys[..|s.keys|] == s.keys
    ensures r.keys[|s.keys|] == Tapped(kc, s.mods)
    ensures r == s.(keys := r.keys)
  {
    s.(keys := s.keys + [Tapped(kc, s.mods)])
  }

  /** `eeconfig_update_user(raw)`: the EEPROM user word becomes `raw`. */
  function EeconfigUpdateUser(s: State, raw: bv32): (r: State)
    ensures r.stored == raw
    ensures r == s.(stored := r.stored)
  {
    s.(stored := raw)
  }

  /** `set_rgb_for_layer(layer)`: the underglow is set to the layer's colour. */
  function SetRgbForLayer(s: State, layer: uint8): (r: State)
    ensures |r.rgb| == |s.rgb| + 1 && r.rgb[..|s.rgb|] == s.rgb
    ensures r.rgb[|s.rgb|].RgbSetHsv? && r.rgb[|s.rgb|].colour == LayerColour(layer)
    ensures r.rgb[|s.rgb|].colour.sat == 255 && r.rgb[|s.rgb|].colour.val == 255
    ensures r == s.(rgb := r.rgb)
  {
    s.(rgb := s.rgb + [RgbSetHsv(LayerColour(layer))])
  }

  /**
   * `layer_state_set_user(state)`: when RGB is enabled in the config, it
   * switches the underglow on and to the colour of the new highest layer; it
   * always hands the new mask back unchanged.
   */
  function LayerStateSetUser(s: State, state: bv32): (r: (State, bv32))
    ensures r.1 == state
    ensures r.0.rgb == s.rgb + LayerChangeCalls(s.config, state)
    ensures r.0 == s.(rgb := r.0.rgb)
  {
    if RgbEnabled(s.config) then
      (SetRgbForLayer(s.(rgb := s.rgb + [RgbEnableNoEeprom]), HighestLayer(state)), state)
    else
      (s, state)
  }

  /** The driver calls that a change of the layer mask to `state` causes. */
  function LayerChangeCalls(config: bv32, state: bv32): seq<RgbCall>
  {
    if RgbEnabled(config) then [RgbEnableNoEeprom, RgbSetHsv(LayerColour(HighestLayer(state)))] else []
  }

  /** `layer_state_set(state)`: the keymap's hook sees the new mask, then the mask is installed. */
  function LayerStateSet(s: State, state: bv32): (r: State)
    ensures r.layers == state
    ensures r == s.(layers := state, rgb := s.rgb + LayerChangeCalls(s.config, state))
  {
    var (t, installed) := LayerStateSetUser(s, state);
    t.(layers := installed)
  }

  /** `layer_invert(layer)`: the layer's bit is flipped. */
  function LayerInvert(s: State, layer: nat): (r: State)
    requires layer < LAYER_COUNT
    ensures forall l: nat :: LayerOn(r.layers, l) <==> (LayerOn(s.layers, l) != (l == layer))
    ensures r == s.(layers := r.layers, rgb := s.rgb + LayerChangeCalls(s.config, r.layers))
  {
    XorLayerBit(s.layers, layer);
    LayerStateSet(s, s.layers ^ LayerBit(layer))
  }

  /** `layer_clear()`: every layer is switched off. */
  function LayerClear(s: State): (r: State)
    ensures r.layers == 0 && forall l: nat :: !LayerOn(r.layers, l)
    ensures r == s.(layers := 0, rgb := s.rgb + LayerChangeCalls(s.config, 0))
  {
    LayerStateSet(s, 0)
  }

  // ---------------------------------------------------------------------------
  // The keymap's callbacks.

  /** `gaming_toggle_finished`: the tap-dance key's decision once its taps are counted. */
  function GamingToggleFinished(s: State, count: uint8, pressed: bool): (r: State)
    ensures r.config == s.config && r.stored == s.stored
    ensures count >= 2 ==> r.mods == s.mods && r.keys == s.keys
    ensures count < 2 ==> r.layers == s.layers && r.rgb == s.rgb
  {
    if count >= 2 then
      LayerInvert(s, LAYER_GAMING)
    else if pressed then
      RegisterMods(s, HYPR)
    else
      UnregisterMods(TapCode(RegisterMods(s, HYPR), KC_SPACE), HYPR)
  }

  /** `gaming_toggle_reset`: run when the tap-dance key is done. */
  function GamingToggleReset(s: State, count: uint8, pressed: bool): (r: State)
    ensures r == s.(mods := r.mods)
    ensures r.mods & !HYPR == s.mods & !HYPR
    ensures r.mods & HYPR == (if count == 1 && pressed then 0 else s.mods & HYPR)
  {
    if count == 1 && pressed then UnregisterMods(s, HYPR) else s
  }

  /** `to_base_finished`: a double tap returns to the base layer. */
  function ToBaseFinished(s: State, count: uint8): (r: State)
    ensures r.mods == s.mods && r.keys == s.keys && r.config == s.config && r.stored == s.stored
    ensures count >= 2 ==> r.layers == 0
    ensures count < 2 ==> r == s
  {
    if count >= 2 then LayerClear(s) else s
  }

  /** `eeconfig_init_user`: the config is reset to its defaults and saved. */
  function EeconfigInitUser(s: State): (r: State)
    ensures r.config == DefaultConfig() && r.stored == r.config
    ensures r == s.(config := r.config, stored := r.stored)
  {
    var t := s.(config := SetRgbEnabled(0, true));
    EeconfigUpdateUser(t, t.config)
  }

  /** `keyboard_post_init_user`: the saved config is loaded and the underglow set up from it. */
  function KeyboardPostInitUser(s: State): (r: State)
    ensures r.config == s.stored
    ensures r == s.(config := s.stored, rgb := r.rgb)
    ensures |r.rgb| > |s.rgb| && r.rgb[..|s.rgb|] == s.rgb
  {
    var t := s.(config := s.stored);
    if RgbEnabled(t.config) then
      SetRgbForLayer(t.(rgb := t.rgb + [RgbEnable, RgbMode(RGBLIGHT_MODE_STATIC_LIGHT)]), LAYER_BASE)
    else
      t.(rgb := t.rgb + [RgbDisable])
  }

  /**
   * `process_record_user`: the keymap's handling of a key event; the boolean
   * says whether the framework goes on to process the key itself.
   */
  function ProcessRecordUser(s: State, keycode: uint16, pressed: bool): (r: (State, bool))
    ensures r.1 <==> keycode != RGB_TOG_EE
    ensures r.0.layers == s.layers && r.0.mods == s.mods
    ensures keycode != TMUX ==> r.0.keys == s.keys
  {
    if keycode == TMUX then
      (if pressed then s.(keys := s.keys + [TmuxMacro]) else s, true)
    else if keycode == RGB_TOG_EE then
      if pressed then
        var t := s.(config := ToggleRgb(s.config));
        var u := EeconfigUpdateUser(t, t.config);
        if RgbEnabled(u.config) then
          (SetRgbForLayer(u.(rgb := u.rgb + [RgbEnable]), HighestLayer(u.layers)), false)
        else
          (u.(rgb := u.rgb + [RgbDisable]), false)
      else
        (s, false)
    else
      (s, true)
  }

  /** The state a power cycle leaves: only the EEPROM word survives. */
  function PowerCycle(s: State): State
  {
    State(0, 0, [], 0, s.stored, [])
  }
}
