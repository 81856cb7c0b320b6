/**
 * The names the Corne keymap gives to layers and keys: the layer enumeration,
 * the home-row mod-tap keys and the keymap's own keycodes.
 */
module Definitions {
  import opened Qmk

  // Layers, in the order of the keymap's enumeration.
  const LAYER_BASE: nat := 0
  const LAYER_NUM: nat := 1
  const LAYER_SYM: nat := 2
  const LAYER_NAV: nat := 3
  const LAYER_MEDIA: nat := 4
  const LAYER_FN: nat := 5
  const LAYER_GAMING: nat := 6

  // Left-hand home-row mods: Ctrl, Alt, GUI, Shift from pinky to index.
  const HOME_A: uint16 := ModTap(MOD_LCTL, KC_A)
  const HOME_S: uint16 := ModTap(MOD_LALT, KC_S)
  const HOME_D: uint16 := ModTap(MOD_LGUI, KC_D)
  const HOME_F: uint16 := ModTap(MOD_LSFT, KC_F)

  // Right-hand home-row mods, from index to pinky.
  const HOME_J: uint16 := ModTap(MOD_RSFT, KC_J)
  const HOME_K: uint16 := ModTap(MOD_RGUI, KC_K)
  const HOME_L: uint16 := ModTap(MOD_LALT, KC_L)
  const HOME_QUO: uint16 := ModTap(MOD_RCTL, KC_QUOT)

  /** Home-row keys of each hand, listed from pinky to index. */
  const LEFT_HOME_ROW: seq<uint16> := [HOME_A, HOME_S, HOME_D, HOME_F]
  const RIGHT_HOME_ROW: seq<uint16> := [HOME_QUO, HOME_L, HOME_K, HOME_J]

  // The keymap's own keycodes, allocated from SAFE_RANGE.
  const TMUX: uint16 := SAFE_RANGE
  const RGB_TOG_EE: uint16 := SAFE_RANGE + 1

  /** The eight home-row keys are eight different keycodes, none of them a custom one. */
  lemma HomeRowKeysDistinct()
    ensures forall i, j :: 0 <= i < 4 && 0 <= j < 4 && i != j ==>
      LEFT_HOME_ROW[i] != LEFT_HOME_ROW[j] && RIGHT_HOME_ROW[i] != RIGHT_HOME_ROW[j]
    ensures forall i, j :: 0 <= i < 4 && 0 <= j < 4 ==> LEFT_HOME_ROW[i] != RIGHT_HOME_ROW[j]
    ensures forall i :: 0 <= i < 4 ==>
      LEFT_HOME_ROW[i] !in {TMUX, RGB_TOG_EE} && RIGHT_HOME_ROW[i] !in {TMUX, RGB_TOG_EE}
  {
  }
}
