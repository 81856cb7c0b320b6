# Corne (crkbd) keymap "hearter": a verified model of its decision logic

The keymap runs on a split 42-key keyboard and sits on a keyboard-firmware
framework. The framework scans the matrix, resolves taps and holds, drives the
OLEDs and the RGB underglow, and keeps EEPROM. The keymap adds a few callbacks.
This project models those callbacks and proves what they do:

- **Gaming tap dance.** One key does two jobs. A single tap sends Hyper+Space,
  where Hyper is left Ctrl, Alt, GUI and Shift together. A single press that is
  still held registers Hyper. A double tap toggles the gaming layer (layer 6).
- **Return-to-base tap dance.** A double tap switches every layer off.
- **Per-key tapping term.** The pinky and ring home-row keys get more than the
  default 175 ms and the index keys less; the middle-finger keys keep it.
- **Persisted RGB toggle.** `RGB_TOG_EE` flips bit 0 (`rgb_enabled`) of a
  32-bit config word and writes the word to EEPROM. At start-up the word is
  read back, and EEPROM initialisation sets it to "RGB on".
- **Pure lookups.**
  - The underglow colour of each layer.
  - The column at which the left OLED writes the layer name.
  - The four-character `SCAG` modifier indicator.
  - The layer hook returns its argument unchanged.

Layout of the project:

- `qmk.dfy` (module `Qmk`): the framework facts the keymap depends on.
  - The modifier bits and masks.
  - The 32-bit layer mask and `get_highest_layer`.
  - The 16-bit encoding of plain and mod-tap keycodes and `SAFE_RANGE`.
  - These values come from the framework's public headers, which are not part
    of this model.
- `definitions.dfy` (module `Definitions`): the keymap's own names. These are
  the layer enumeration, the eight home-row mod-tap keys, and `TMUX` and
  `RGB_TOG_EE`.
- `tapping.dfy` (module `Tapping`): `get_tapping_term`.
- `user_config.dfy` (module `UserConfig`): the `user_config_t` union as a
  `bv32` whose bit 0 is `rgb_enabled`.
- `display.dfy` (module `Display`): the layer colours, the OLED layer column and
  name, and the modifier indicator. The indicator is modelled as a function and
  as the in-place fill of the 5-character buffer.
- `transitions.dfy` (module `Transitions`): the callbacks as pure functions on
  a `State`. The state holds:
  - the layer mask and the modifier mask;
  - the key output and the underglow driver calls made so far;
  - the config word and the EEPROM word.

  The framework operations the callbacks call (`layer_invert`, `layer_clear`,
  `register_mods`, `unregister_mods`, `tap_code`, `eeconfig_update_user`,
  `layer_state_set`) are functions here too.
- `keymap_properties.dfy` (module `KeymapProperties`): lemmas over all states and
  inputs.
- `firmware.dfy` (module `Firmware`): class `Keyboard`. Its fields are the
  globals. Each callback is a method that updates them step by step, as the C
  code does. Each method is proved to produce exactly the state given by the
  matching `Transitions` function.

Assumptions about the build and the framework:

- `OLED_ENABLE` and `RGBLIGHT_ENABLE` are both defined.
  - `set_rgb_for_layer`, `layer_state_set_user` and `get_tapping_term` are
    defined only inside the `#ifdef OLED_ENABLE` block (keymap.c:179-438).
  - `keyboard_post_init_user` and `process_record_user` call
    `set_rgb_for_layer` outside that block, so the keymap links only when
    `OLED_ENABLE` is set.
- `layer_state_set` passes the new mask through the keymap's
  `layer_state_set_user` and then installs the result. The keyboard-level hook
  is taken to pass the mask through unchanged.
- `get_highest_layer` returns the index of the highest set bit, and 0 for the
  empty mask.
- `tap_code` is recorded as one `Tapped(keycode, held)` event, where `held` is
  the modifier mask at the time of the tap.
- `rgb_enabled` is bit 0 of `raw`. This is where the compiler places the first
  one-bit field on the little-endian targets this keyboard uses.

## Model

| member | source | states |
|---|---|---|
| `Qmk.HighestLayer` | keyboards/crkbd/rev1/keymaps/hearter/keymap.c:366 | For a non-empty mask, the result is an active layer and no higher layer is active. The empty mask gives layer 0, and the result is always below 32. |
| `Qmk.HighestAtMost` | keyboards/crkbd/rev1/keymaps/hearter/keymap.c:366 | Scanning down from bit `top` finds the highest set bit, given that no bit above `top` is set. The proof uses the contract of the recursive call. |
| `Qmk.LayerBit` | keyboards/crkbd/rev1/keymaps/hearter/keymap.c:90 | The mask `layer_invert` XORs in has exactly one active layer: the one named. |
| `Qmk.XorLayerBit` | keyboards/crkbd/rev1/keymaps/hearter/keymap.c:90 | XOR-ing the bit of a layer into a mask flips that layer's state and leaves every other layer as it was. |
| `Qmk.ModTap` | keyboards/crkbd/rev1/keymaps/hearter/keymap.c:50-59 | A mod-tap keycode lies in the mod-tap range. Its modifier set and tapped key can both be read back from it. |
| `Definitions.HomeRowKeysDistinct` | keyboards/crkbd/rev1/keymaps/hearter/keymap.c:49-59 | The eight home-row keys are pairwise distinct. None of them equals `TMUX` or `RGB_TOG_EE`, so the `case` labels of `get_tapping_term` never overlap. |
| `Tapping.GetTappingTerm` | keyboards/crkbd/rev1/keymaps/hearter/keymap.c:279-296 | Every keycode gets a term between `TAPPING_TERM - 10` and `TAPPING_TERM + 25`, i.e. 165 to 200 ms. |
| `Tapping.TappingTermClasses` | keyboards/crkbd/rev1/keymaps/hearter/keymap.c:279-296 | Exactly `HOME_A`/`HOME_QUO` get 200 and exactly `HOME_S`/`HOME_L` get 185. Exactly `HOME_F`/`HOME_J` get 165, and every other keycode gets 175. No other value occurs. |
| `Tapping.HomeRowTermsMirrored` | keyboards/crkbd/rev1/keymaps/hearter/keymap.c:281-292 | The same finger on either hand gets the same term. Along a hand, the term falls strictly from pinky to index. |
| `Tapping.DefaultTermKeys` | keyboards/crkbd/rev1/keymaps/hearter/keymap.c:293-294 | `HOME_D`, `HOME_K`, `TMUX` and `RGB_TOG_EE` keep the default term. |
| `UserConfig.RgbEnabled` | keyboards/crkbd/rev1/keymaps/hearter/keymap.c:61-68 | Reading the one-bit field `rgb_enabled` gives true exactly when the raw word is odd, i.e. its bit 0 is set. |
| `UserConfig.SetRgbEnabled` | keyboards/crkbd/rev1/keymaps/hearter/keymap.c:62-68 | Writing the bit-field makes it read back as the value written. The other 31 bits of `raw` are unchanged. |
| `UserConfig.ToggleRgb` | keyboards/crkbd/rev1/keymaps/hearter/keymap.c:161 | The toggle inverts `rgb_enabled` and leaves the other 31 bits of `raw` unchanged. |
| `UserConfig.ToggleFlipsBitZero` | keyboards/crkbd/rev1/keymaps/hearter/keymap.c:161 | The toggle is an XOR with bit 0 of the raw word. |
| `UserConfig.ToggleTwice` | keyboards/crkbd/rev1/keymaps/hearter/keymap.c:161 | Toggling twice gives back all 32 bits of the original word. |
| `UserConfig.SetWhatIsRead` | keyboards/crkbd/rev1/keymaps/hearter/keymap.c:62-68 | Writing back the value just read leaves the word unchanged. |
| `UserConfig.DefaultConfig` | keyboards/crkbd/rev1/keymaps/hearter/keymap.c:126-127 | The default word has only the `rgb_enabled` bit set (it equals 1), and RGB reads as enabled. |
| `Display.LayerColour` | keyboards/crkbd/rev1/keymaps/hearter/keymap.c:206-243 | Every layer's colour has saturation 255 and value 255. |
| `Display.LayerColoursDistinct` | keyboards/crkbd/rev1/keymaps/hearter/keymap.c:206-243 | Two layers share a colour exactly when they are the same layer or both lie outside the seven named layers. |
| `Display.LayerColumn` | keyboards/crkbd/rev1/keymaps/hearter/keymap.c:370-383 | The column is 7, 8 or 9. It is 7 for MEDIA, 9 for FN, and 8 exactly when the layer is neither. |
| `Display.LayerName` | keyboards/crkbd/rev1/keymaps/hearter/keymap.c:387-411 | The name written is 2 to 5 characters long. It is 5 long (`MEDIA`) exactly for MEDIA and 2 long (`FN`) exactly for FN; `LayerNameCentred` relates these lengths to the column. |
| `Display.LayerNameCentred` | keyboards/crkbd/rev1/keymaps/hearter/keymap.c:370-422 | For every layer, the written name's midpoint is at most half a column from the midpoint of the indicator at column 8. |
| `Display.ModsIndicator` | keyboards/crkbd/rev1/keymaps/hearter/keymap.c:416-420 | The indicator has 4 characters. Position i shows the i-th letter of `SCAG` when the mask has a modifier of that kind (either hand), and a space otherwise. |
| `Display.IndicatorShowsHeld` | keyboards/crkbd/rev1/keymaps/hearter/keymap.c:416-420 | Position i is non-blank exactly when its mask test is non-zero. It only ever holds its own letter or a space. |
| `Display.IndicatorSameIff` | keyboards/crkbd/rev1/keymaps/hearter/keymap.c:416-420 | Two modifier masks give the same indicator exactly when each of the four kinds of modifier is held in both or in neither. |
| `Display.IndicatorIgnoresHand` | keyboards/crkbd/rev1/keymaps/hearter/keymap.c:416-420 | Swapping the left-hand and right-hand modifiers does not change the indicator. |
| `Display.HyperShowsAll` | keyboards/crkbd/rev1/keymaps/hearter/keymap.c:416-420 | Whenever Hyper is held the indicator reads `SCAG`. |
| `Display.NothingHeldIsBlank` | keyboards/crkbd/rev1/keymaps/hearter/keymap.c:416 | With no modifier held, the indicator is four spaces. |
| `Display.FillModsBuffer` | keyboards/crkbd/rev1/keymaps/hearter/keymap.c:416-420 | The filled 5-character buffer is the indicator followed by a NUL. |
| `Transitions.LayerStateSetUser` | keyboards/crkbd/rev1/keymaps/hearter/keymap.c:246-256 | The hook returns its argument unchanged. It changes only the driver log, adding "enable, colour of the new highest layer" when RGB is enabled and nothing otherwise. |
| `Transitions.RegisterMods` | keyboards/crkbd/rev1/keymaps/hearter/keymap.c:94 | `register_mods(m)`: afterwards every bit of `m` is set, the other modifier bits are as before, and nothing but the modifier mask changes. |
| `Transitions.UnregisterMods` | keyboards/crkbd/rev1/keymaps/hearter/keymap.c:98 | `unregister_mods(m)`: afterwards no bit of `m` is set, the other modifier bits are as before, and nothing but the modifier mask changes. |
| `Transitions.TapCode` | keyboards/crkbd/rev1/keymaps/hearter/keymap.c:97 | `tap_code(kc)`: the key output grows by exactly one event, a tap of `kc` under the modifiers held at that moment. Everything before it and all other state are kept. |
| `Transitions.EeconfigUpdateUser` | keyboards/crkbd/rev1/keymaps/hearter/keymap.c:128 | `eeconfig_update_user(raw)`: the EEPROM word becomes `raw` and nothing else changes. |
| `Transitions.SetRgbForLayer` | keyboards/crkbd/rev1/keymaps/hearter/keymap.c:206-243 | `set_rgb_for_layer`: the driver log grows by exactly one `sethsv` call, with the layer's colour at full saturation and value. Nothing else changes. |
| `Transitions.LayerStateSet` | keyboards/crkbd/rev1/keymaps/hearter/keymap.c:246-256 | `layer_state_set` through the keymap's hook: the new mask is exactly the one requested. The state changes only in that mask and in the hook's driver calls. |
| `Transitions.LayerInvert` | keyboards/crkbd/rev1/keymaps/hearter/keymap.c:90 | `layer_invert(layer)`: the named layer flips and every other layer keeps its state. Apart from the mask, only the hook's driver calls for the new mask are added. |
| `Transitions.LayerClear` | keyboards/crkbd/rev1/keymaps/hearter/keymap.c:115 | `layer_clear()`: no layer is active afterwards. Apart from the mask, only the hook's driver calls for mask 0 are added. |
| `Transitions.GamingToggleFinished` | keyboards/crkbd/rev1/keymaps/hearter/keymap.c:87-101 | The config and EEPROM words are never touched. A double tap leaves the modifiers and key output alone, and a single tap or hold leaves the layers and driver log alone. `GamingDoubleTapFlipsGaming`, `GamingSingleTapSendsHyperSpace` and `GamingHoldRegistersHyper` state each branch in full. |
| `Transitions.GamingToggleReset` | keyboards/crkbd/rev1/keymaps/hearter/keymap.c:103-109 | Only the modifier mask can change, and only in the Hyper bits. Those are cleared when `count == 1 && pressed` and kept otherwise; `GamingResetClearsHyperIff` gives both directions. |
| `Transitions.ToBaseFinished` | keyboards/crkbd/rev1/keymaps/hearter/keymap.c:112-118 | The modifiers, key output, config and EEPROM are never touched. A double tap makes the mask 0 and a single tap changes nothing; `ToBaseDoubleTapClears` states it in full. |
| `Transitions.EeconfigInitUser` | keyboards/crkbd/rev1/keymaps/hearter/keymap.c:124-129 | The config becomes the default word and EEPROM holds the same word. Nothing else changes; `ConfigInitDefaults` adds that the word is 1 with RGB enabled. |
| `Transitions.KeyboardPostInitUser` | keyboards/crkbd/rev1/keymaps/hearter/keymap.c:132-147 | The config becomes the EEPROM word, and only the config and the driver log change. The log only grows. `BootFollowsStoredWord` gives the exact calls for either value of the bit. |
| `Transitions.ProcessRecordUser` | keyboards/crkbd/rev1/keymaps/hearter/keymap.c:149-177 | The result is false exactly for `RGB_TOG_EE`. The layers and modifiers are never touched, and only `TMUX` adds key output. `RgbTogglePress`, `RgbToggleRelease` and `OtherKeysPassThrough` state each case in full. |
| `KeymapProperties.GamingDoubleTapFlipsGaming` | keyboards/crkbd/rev1/keymaps/hearter/keymap.c:87-91 | With `count >= 2`, the gaming layer flips and no other layer changes. No key is sent, and the modifiers, config and EEPROM are untouched. The underglow follows the new mask. |
| `KeymapProperties.DoubleTapInverts` | keyboards/crkbd/rev1/keymaps/hearter/keymap.c:88-90 | With `count >= 2`, the callback `layer_invert(LAYER_GAMING)` XORs the gaming bit into the mask. |
| `KeymapProperties.GamingDoubleTapTwice` | keyboards/crkbd/rev1/keymaps/hearter/keymap.c:87-91 | Two double taps give back the original layer mask. |
| `KeymapProperties.GamingSingleTapSendsHyperSpace` | keyboards/crkbd/rev1/keymaps/hearter/keymap.c:92-99 | With `count < 2` and the key released, exactly one Space is sent. All four Hyper bits are held during it, and the other modifiers are as before. Afterwards the Hyper bits are clear and the other modifiers are unchanged. The layers, driver log, config and EEPROM are untouched. |
| `KeymapProperties.SingleTapShowsHyper` | keyboards/crkbd/rev1/keymaps/hearter/keymap.c:95-98 | The modifier mask held during that Space would make the indicator read `SCAG`. |
| `KeymapProperties.GamingHoldRegistersHyper` | keyboards/crkbd/rev1/keymaps/hearter/keymap.c:93-94 | With `count < 2` and the key still pressed, the callback only ORs in the four Hyper bits. |
| `KeymapProperties.GamingResetClearsHyperIff` | keyboards/crkbd/rev1/keymaps/hearter/keymap.c:103-109 | When `count == 1 && pressed`, the reset clears the Hyper bits and changes nothing else. In every other case the state is unchanged. The layer mask is never touched. |
| `KeymapProperties.GamingHoldThenReset` | keyboards/crkbd/rev1/keymaps/hearter/keymap.c:93-107 | A held single press, followed by a reset that sees the key pressed, leaves the original state with only the Hyper bits cleared. |
| `KeymapProperties.ToBaseDoubleTapClears` | keyboards/crkbd/rev1/keymaps/hearter/keymap.c:112-118 | With `count >= 2`, the mask becomes 0. No layer is active and the highest layer is `LAYER_BASE`. Nothing but the mask and the driver log changes. With `count < 2` the state is unchanged. |
| `KeymapProperties.LayerHookIsIdentity` | keyboards/crkbd/rev1/keymaps/hearter/keymap.c:246-256 | `layer_state_set` installs exactly the mask it was given. With RGB disabled nothing else changes. With RGB enabled, the only other change is the two driver calls `rgblight_enable_noeeprom` and the colour of the new highest layer. |
| `KeymapProperties.RgbTogglePress` | keyboards/crkbd/rev1/keymaps/hearter/keymap.c:158-174 | Pressing `RGB_TOG_EE` inverts `rgb_enabled` and keeps the other config bits. It saves the new word to EEPROM and switches the underglow to match, using the colour of the highest layer when it comes on. It returns false. |
| `KeymapProperties.RgbToggleRelease` | keyboards/crkbd/rev1/keymaps/hearter/keymap.c:158-174 | Releasing `RGB_TOG_EE` changes nothing and returns false. |
| `KeymapProperties.RgbToggleTwice` | keyboards/crkbd/rev1/keymaps/hearter/keymap.c:159-164 | Two presses give back the original config word, and EEPROM then holds that word. |
| `KeymapProperties.OtherKeysPassThrough` | keyboards/crkbd/rev1/keymaps/hearter/keymap.c:149-177 | Every keycode other than `RGB_TOG_EE` returns true and leaves the config, EEPROM, layers, modifiers and driver log alone. The only effect is that a `TMUX` press sends its macro. |
| `KeymapProperties.BootFollowsStoredWord` | keyboards/crkbd/rev1/keymaps/hearter/keymap.c:132-147 | Start-up loads the EEPROM word as the config. If its `rgb_enabled` bit is set, the driver calls are exactly enable, static mode and the base layer's colour; otherwise exactly one disable call. Nothing else changes. |
| `KeymapProperties.RgbToggleSurvivesPowerCycle` | keyboards/crkbd/rev1/keymaps/hearter/keymap.c:132-164 | After a toggle and a power cycle, `keyboard_post_init_user` loads the config word the toggle saved, with `rgb_enabled` inverted from before. |
| `KeymapProperties.ConfigInitDefaults` | keyboards/crkbd/rev1/keymaps/hearter/keymap.c:124-129 | `eeconfig_init_user` stores a word with only the `rgb_enabled` bit set. The config equals that word and RGB reads as enabled. Nothing else changes. |
| `KeymapProperties.InitThenBootLightsBase` | keyboards/crkbd/rev1/keymaps/hearter/keymap.c:124-146 | After EEPROM initialisation and a power cycle, start-up enables the underglow, selects static mode and shows the base layer's colour. |
| `Firmware.Keyboard.constructor` | keyboards/crkbd/rev1/keymaps/hearter/keymap.c:70 | At power-on, all RAM state is zero and EEPROM holds the given word. |
| `Firmware.Keyboard.RegisterMods` | keyboards/crkbd/rev1/keymaps/hearter/keymap.c:94 | ORs the bits into the modifier mask; nothing else changes. |
| `Firmware.Keyboard.UnregisterMods` | keyboards/crkbd/rev1/keymaps/hearter/keymap.c:98 | Clears the bits from the modifier mask; nothing else changes. |
| `Firmware.Keyboard.TapCode` | keyboards/crkbd/rev1/keymaps/hearter/keymap.c:97 | Appends one tap of the key, under the current modifiers, to the key output. |
| `Firmware.Keyboard.EeconfigUpdateUser` | keyboards/crkbd/rev1/keymaps/hearter/keymap.c:128 | The EEPROM word becomes the given word. |
| `Firmware.Keyboard.EeconfigReadUser` | keyboards/crkbd/rev1/keymaps/hearter/keymap.c:134 | Returns the EEPROM word. |
| `Firmware.Keyboard.LayerStateSet` | keyboards/crkbd/rev1/keymaps/hearter/keymap.c:246-256 | Runs the keymap's hook, then installs the mask it returns. |
| `Firmware.Keyboard.LayerInvert` | keyboards/crkbd/rev1/keymaps/hearter/keymap.c:90 | Sets the mask to the old one XOR the layer's bit, through the hook. |
| `Firmware.Keyboard.LayerClear` | keyboards/crkbd/rev1/keymaps/hearter/keymap.c:115 | Sets the mask to 0, through the hook. |
| `Firmware.Keyboard.SetRgbForLayer` | keyboards/crkbd/rev1/keymaps/hearter/keymap.c:206-243 | Appends one colour change to the layer's colour. |
| `Firmware.Keyboard.LayerStateSetUser` | keyboards/crkbd/rev1/keymaps/hearter/keymap.c:246-256 | Leaves state and result as `Transitions.LayerStateSetUser` gives them. |
| `Firmware.Keyboard.GamingToggleFinished` | keyboards/crkbd/rev1/keymaps/hearter/keymap.c:87-101 | The new state is `Transitions.GamingToggleFinished` of the old one. |
| `Firmware.Keyboard.GamingToggleReset` | keyboards/crkbd/rev1/keymaps/hearter/keymap.c:103-109 | The new state is `Transitions.GamingToggleReset` of the old one. |
| `Firmware.Keyboard.ToBaseFinished` | keyboards/crkbd/rev1/keymaps/hearter/keymap.c:112-118 | The new state is `Transitions.ToBaseFinished` of the old one. |
| `Firmware.Keyboard.EeconfigInitUser` | keyboards/crkbd/rev1/keymaps/hearter/keymap.c:124-129 | The new state is `Transitions.EeconfigInitUser` of the old one. |
| `Firmware.Keyboard.KeyboardPostInitUser` | keyboards/crkbd/rev1/keymaps/hearter/keymap.c:132-147 | The new state is `Transitions.KeyboardPostInitUser` of the old one. |
| `Firmware.Keyboard.ProcessRecordUser` | keyboards/crkbd/rev1/keymaps/hearter/keymap.c:149-177 | The new state and the returned flag are those of `Transitions.ProcessRecordUser`. |
| `Firmware.Keyboard.OledLayerColumn` | keyboards/crkbd/rev1/keymaps/hearter/keymap.c:366-383 | The column is that of the highest active layer. |
| `Firmware.Keyboard.OledModsBuffer` | keyboards/crkbd/rev1/keymaps/hearter/keymap.c:414-420 | The buffer is the indicator for the registered modifiers, followed by a NUL. |
| `Firmware.ToggleThenPowerCycle` | keyboards/crkbd/rev1/keymaps/hearter/keymap.c:132-164 | After a press of `RGB_TOG_EE` and a power cycle, the new keyboard starts with the config word the press saved. |

## Left out

- The `keymaps` layout table (keymap.c:441-525) and the `#define` aliases other
  than the home-row mod-taps: static data with no behaviour of its own.
- All OLED output: `oled_write_P`, `oled_write`, `oled_set_cursor`,
  `oled_clear`, the right-half banner, and `oled_init_user`, which returns the
  rotation it is given. These are display I/O. Only the computed column and
  the computed indicator buffer are modelled. `LayerName` models the names
  written at keymap.c:387-411, so the column can be related to them.
- `render_layer_state`, `render_mod_status`, `render_caps_lock` and
  `render_keylogger`: display helpers that are defined but never called.
- `bootmagic_lite_reset_handler` and `shutdown_user`: LED flashing loops timed
  by `wait_ms`, which is hardware I/O.
- The text and timing of the `TMUX` macro (`SEND_STRING` with `SS_DELAY`). It
  is recorded as the single output event `TmuxMacro`.
- The underglow driver's own behaviour. Its calls are recorded in order and
  their effect is not modelled, including the framework's own EEPROM writes
  from `rgblight_enable` and `rgblight_disable`.
- The HID reports that `register_mods` and `unregister_mods` send on their own.
  Only the modifier mask is kept.
- The framework's tap-dance engine, its timing, `PERMISSIVE_HOLD`, and which
  `count` and `pressed` values it passes to the callbacks. These are external.
  The lemmas state what the callbacks do for given inputs. In particular, the
  model does not claim that Hyper is always released after a hold: that
  happens only if the reset callback sees `pressed` still true.
- The preprocessor settings of config.h other than `TAPPING_TERM` (config.h:34).
- Split transport and the choice of master half (`is_keyboard_master`). These
  are hardware and concurrency. Only the master half's computations are
  modelled.
- The unused `keyrecord_t` and `user_data` arguments, apart from
  `record->event.pressed`, which is the `pressed` parameter.
