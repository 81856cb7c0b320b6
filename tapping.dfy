/**
 * Per-key tapping term (`get_tapping_term`): how long, in milliseconds, a
 * home-row mod-tap key must be held before it counts as its modifier.  The
 * slower pinky and ring fingers get more time, the index fingers less, and the
 * middle fingers keep the default.
 */
module Tapping {
  import opened Qmk
  import opened Definitions

  /** The keyboard-wide tapping term, in milliseconds. */
  const TAPPING_TERM: uint16 := 175

  /** `get_tapping_term`: the tapping term of `keycode`. */
  function GetTappingTerm(keycode: uint16): (term: uint16)
    ensures TAPPING_TERM - 10 <= term <= TAPPING_TERM + 25
  {
    if keycode == HOME_A || keycode == HOME_QUO then TAPPING_TERM + 25
    else if keycode == HOME_S || keycode == HOME_L then TAPPING_TERM + 10
    else if keycode == HOME_F || keycode == HOME_J then TAPPING_TERM - 10
    else TAPPING_TERM
  }

  /** Each of the four possible terms, and exactly which keys receive it. */
  lemma TappingTermClasses(keycode: uint16)
    ensures GetTappingTerm(keycode) == 200 <==> keycode == HOME_A || keycode == HOME_QUO
    ensures GetTappingTerm(keycode) == 185 <==> keycode == HOME_S || keycode == HOME_L
    ensures GetTappingTerm(keycode) == 165 <==> keycode == HOME_F || keycode == HOME_J
    ensures GetTappingTerm(keycode) == TAPPING_TERM <==>
      keycode !in {HOME_A, HOME_QUO, HOME_S, HOME_L, HOME_F, HOME_J}
    ensures GetTappingTerm(keycode) in {165, 175, 185, 200}
  {
  }

  /**
   * The two hands are mirror images: the same finger on either hand gets the
   * same term, and along each hand the term falls strictly from pinky to index.
   */
  lemma HomeRowTermsMirrored(i: nat)
    requires i < 4
    ensures GetTappingTerm(LEFT_HOME_ROW[i]) == GetTappingTerm(RIGHT_HOME_ROW[i])
    ensures i < 3 ==> GetTappingTerm(LEFT_HOME_ROW[i]) > GetTappingTerm(LEFT_HOME_ROW[i + 1])
  {
  }

  /**
   * Examples of the default case of `TappingTermClasses`: the middle-finger
   * home keys and the keymap's own keycodes keep the default term.
   */
  lemma DefaultTermKeys()
    ensures GetTappingTerm(HOME_D) == TAPPING_TERM && GetTappingTerm(HOME_K) == TAPPING_TERM
    ensures GetTappingTerm(TMUX) == TAPPING_TERM && GetTappingTerm(RGB_TOG_EE) == TAPPING_TERM
  {
  }
}
