/**
 * The keymap's callbacks as the firmware runs them: step by step on the
 * firmware's state.  A `Keyboard` holds the globals the callbacks read and
 * write; each method is proved to leave exactly the state that the matching
 * function of `Transitions` describes.
 */
module Firmware {
  import opened Qmk
  import opened Definitions
  import opened UserConfig
  import opened Display
  import T = Transitions

  class Keyboard {
    var layerState: bv32        // the framework's layer_state
    var mods: bv8               // the framework's registered modifiers
    var keys: seq<T.KeyEvent>   // the key output so far
    var userConfig: bv32        // the keymap's user_config.raw
    var eeprom: bv32            // the user word in EEPROM
    var rgb: seq<T.RgbCall>     // the underglow driver calls so far

    /** The abstract state this keyboard is in. */
    function State(): T.State
      reads this
    {
      T.State(layerState, mods, keys, userConfig, eeprom, rgb)
    }

    /** Power-on: all RAM state is zero and EEPROM holds `stored`. */
    constructor (stored: bv32)
      ensures State() == T.State(0, 0, [], 0, stored, [])
    {
      layerState, mods, keys := 0, 0, [];
      userConfig, eeprom, rgb := 0, stored, [];
    }

    // -------------------------------------------------------------------------
    // Framework operations.

    method RegisterMods(m: bv8)
      modifies this
      ensures State() == T.RegisterMods(old(State()), m)
    {
      mods := mods | m;
    }

    method UnregisterMods(m: bv8)
      modifies this
      ensures State() == T.UnregisterMods(old(State()), m)
    {
      mods := mods & !m;
    }

    method TapCode(kc: uint16)
      modifies this
      ensures State() == T.TapCode(old(State()), kc)
    {
      keys := keys + [T.Tapped(kc, mods)];
    }

    method EeconfigUpdateUser(raw: bv32)
      modifies this
      ensures State() == T.EeconfigUpdateUser(old(State()), raw)
    {
      eeprom := raw;
    }

    method EeconfigReadUser() returns (raw: bv32)
      ensures raw == eeprom
    {
      raw := eeprom;
    }

    method LayerStateSet(state: bv32)
      modifies this
      ensures State() == T.LayerStateSet(old(State()), state)
    {
      var installed := LayerStateSetUser(state);
      layerState := installed;
    }

    method LayerInvert(layer: nat)
      requires layer < LAYER_COUNT
      modifies this
      ensures State() == T.LayerInvert(old(State()), layer)
    {
      LayerStateSet(layerState ^ LayerBit(layer));
    }

    method LayerClear()
      modifies this
      ensures State() == T.LayerClear(old(State()))
    {
      LayerStateSet(0);
    }

    // -------------------------------------------------------------------------
    // The keymap's callbacks.

    method SetRgbForLayer(layer: uint8)
      modifies this
      ensures State() == T.SetRgbForLayer(old(State()), layer)
    {
      rgb := rgb + [T.RgbSetHsv(LayerColour(layer))];
    }

    method LayerStateSetUser(state: bv32) returns (r: bv32)
      modifies this
      ensures (State(), r) == T.LayerStateSetUser(old(State()), state)
    {
      if RgbEnabled(userConfig) {
        rgb := rgb + [T.RgbEnableNoEeprom];
        SetRgbForLayer(HighestLayer(state));
      }
      r := state;
    }

    method GamingToggleFinished(count: uint8, pressed: bool)
      modifies this
      ensures State() == T.GamingToggleFinished(old(State()), count, pressed)
    {
      if count >= 2 {
        LayerInvert(LAYER_GAMING);
      } else {
        if pressed {
          RegisterMods(HYPR);
        } else {
          RegisterMods(HYPR);
          TapCode(KC_SPACE);
          UnregisterMods(HYPR);
        }
      }
    }

    method GamingToggleReset(count: uint8, pressed: bool)
      modifies this
      ensures State() == T.GamingToggleReset(old(State()), count, pressed)
    {
      if count == 1 && pressed {
        UnregisterMods(HYPR);
      }
    }

    method ToBaseFinished(count: uint8)
      modifies this
      ensures State() == T.ToBaseFinished(old(State()), count)
    {
      if count >= 2 {
        LayerClear();
      }
    }

    method EeconfigInitUser()
      modifies this
      ensures State() == T.EeconfigInitUser(old(State()))
    {
      userConfig := 0;
      userConfig := SetRgbEnabled(userConfig, true);
      EeconfigUpdateUser(userConfig);
    }

    method KeyboardPostInitUser()
      modifies this
      ensures State() == T.KeyboardPostInitUser(old(State()))
    {
      userConfig := EeconfigReadUser();
      if RgbEnabled(userConfig) {
        rgb := rgb + [T.RgbEnable];
        rgb := rgb + [T.RgbMode(T.RGBLIGHT_MODE_STATIC_LIGHT)];
        SetRgbForLayer(LAYER_BASE);
      } else {
        rgb := rgb + [T.RgbDisable];
      }
    }

    method ProcessRecordUser(keycode: uint16, pressed: bool) returns (goOn: bool)
      modifies this
      ensures (State(), goOn) == T.ProcessRecordUser(old(State()), keycode, pressed)
    {
      if keycode == TMUX {
        if pressed {
          keys := keys + [T.TmuxMacro];
        }
      } else if keycode == RGB_TOG_EE {
        if pressed {
          userConfig := SetRgbEnabled(userConfig, !RgbEnabled(userConfig));
          EeconfigUpdateUser(userConfig);
          if RgbEnabled(userConfig) {
            rgb := rgb + [T.RgbEnable];
            SetRgbForLayer(HighestLayer(layerState));
          } else {
            rgb := rgb + [T.RgbDisable];
          }
        }
        return false;
      }
      return true;
    }

    // -------------------------------------------------------------------------
    // What the left OLED task computes.

    /** The column at which the name of the highest layer is written. */
    method OledLayerColumn() returns (col: uint8)
      ensures col == LayerColumn(HighestLayer(layerState))
    {
      var layer: uint8 := HighestLayer(layerState);
      col := LayerColumn(layer);
    }

    /** The modifier indicator buffer for the modifiers now registered. */
    method OledModsBuffer() returns (buf: array<char>)
      ensures fresh(buf)
      ensures buf[..] == ModsIndicator(mods) + ['\0']
    {
      buf := FillModsBuffer(mods);
    }
  }

  /**
   * A client of `Keyboard`: the RGB choice made with RGB_TOG_EE is the one the
   * keyboard starts with after a power cycle.
   */
  method ToggleThenPowerCycle(k: Keyboard) returns (next: Keyboard)
    modifies k
    ensures fresh(next)
    ensures RgbEnabled(next.userConfig) == !RgbEnabled(old(k.userConfig))
    ensures next.userConfig == k.userConfig
  {
    var goOn := k.ProcessRecordUser(RGB_TOG_EE, true);
    assert !goOn;
    next := new Keyboard(k.eeprom);
    next.KeyboardPostInitUser();
  }
}
