/**
 * `user_config_t`: the keymap's persisted settings, a union of a 32-bit word
 * `raw` and a struct of bit-fields.  Its only field, `rgb_enabled`, is the
 * first one-bit field and so occupies bit 0 of `raw` on the little-endian
 * targets this keyboard uses; the other 31 bits are unused and kept as they are.
 */
module UserConfig {

  const RGB_ENABLED_BIT: bv32 := 1

  /** Reading `user_config.rgb_enabled` from the word `raw`: the word is odd. */
  predicate RgbEnabled(raw: bv32)
    ensures RgbEnabled(raw) <==> raw % 2 == 1
  {
    raw & RGB_ENABLED_BIT != 0
  }

  /** Writing `user_config.rgb_enabled = on` into the word `raw`. */
  function SetRgbEnabled(raw: bv32, on: bool): (r: bv32)
    ensures RgbEnabled(r) == on
    ensures r & !RGB_ENABLED_BIT == raw & !RGB_ENABLED_BIT
  {
    if on then raw | RGB_ENABLED_BIT else raw & !RGB_ENABLED_BIT
  }

  /** `user_config.rgb_enabled = !user_config.rgb_enabled`. */
  function ToggleRgb(raw: bv32): (r: bv32)
    ensures RgbEnabled(r) == !RgbEnabled(raw)
    ensures r & !RGB_ENABLED_BIT == raw & !RGB_ENABLED_BIT
  {
    SetRgbEnabled(raw, !RgbEnabled(raw))
  }

  /** The defaults of `eeconfig_init_user`: all bits clear, then RGB enabled. */
  function DefaultConfig(): (raw: bv32)
    ensures raw == RGB_ENABLED_BIT
    ensures RgbEnabled(raw)
  {
    SetRgbEnabled(0, true)
  }

  /** Toggling flips bit 0 of the word and no other bit. */
  lemma ToggleFlipsBitZero(raw: bv32)
    ensures ToggleRgb(raw) == raw ^ RGB_ENABLED_BIT
  {
    if RgbEnabled(raw) {
      assert ToggleRgb(raw) == raw & !RGB_ENABLED_BIT;
    } else {
      assert ToggleRgb(raw) == raw | RGB_ENABLED_BIT;
    }
  }

  /** Two toggles give back the original word, all 32 bits of it. */
  lemma ToggleTwice(raw: bv32)
    ensures ToggleRgb(ToggleRgb(raw)) == raw
  {
  }

  /** Writing back the value just read changes nothing. */
  lemma SetWhatIsRead(raw: bv32)
    ensures SetRgbEnabled(raw, RgbEnabled(raw)) == raw
  {
  }
}
