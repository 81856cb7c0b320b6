/**
 * What the keyboard shows for its state: the underglow colour of each layer
 * (`set_rgb_for_layer`), and on the left OLED the column at which the layer
 * name is written and the four-character modifier indicator.
 */
module Display {
  import opened Qmk
  import opened Definitions

  /** A colour as hue, saturation and value, each 0..255. */
  datatype Hsv = Hsv(hue: uint8, sat: uint8, val: uint8)

  /** The colour `set_rgb_for_layer` gives a layer: a hue per layer, fully saturated and bright. */
  function LayerColour(layer: uint8): (c: Hsv)
    ensures c.sat == 255 && c.val == 255
  {
    var hue :=
      if layer == LAYER_BASE then 190        // purple-blue
      else if layer == LAYER_NUM then 128    // teal
      else if layer == LAYER_SYM then 85     // green
      else if layer == LAYER_NAV then 10     // red-orange
      else if layer == LAYER_MEDIA then 43   // yellow
      else if layer == LAYER_FN then 213     // purple
      else if layer == LAYER_GAMING then 0   // red
      else 234;                              // magenta for any other layer
    Hsv(hue, 255, 255)
  }

  /** Every named layer has a colour of its own, and every other layer shares the default one. */
  lemma LayerColoursDistinct(a: uint8, b: uint8)
    ensures LayerColour(a) == LayerColour(b) <==> a == b || (a > LAYER_GAMING && b > LAYER_GAMING)
  {
  }

  // ---------------------------------------------------------------------------
  // Left OLED.

  /** Column at which the modifier indicator is written, on row 2. */
  const MODS_COLUMN: nat := 8

  /** Column at which the layer name is written, on row 0. */
  function LayerColumn(layer: uint8): (col: uint8)
    ensures 7 <= col <= 9
    ensures col == 8 <==> layer != LAYER_MEDIA && layer != LAYER_FN
    ensures layer == LAYER_MEDIA ==> col == 7
    ensures layer == LAYER_FN ==> col == 9
  {
    if layer == LAYER_MEDIA then 7
    else if layer == LAYER_FN then 9
    else 8
  }

  /** The name written for a layer. */
  function LayerName(layer: uint8): (name: string)
    ensures 2 <= |name| <= 5
    ensures |name| == 5 <==> layer == LAYER_MEDIA
    ensures |name| == 2 <==> layer == LAYER_FN
  {
    if layer == LAYER_BASE then "BASE"
    else if layer == LAYER_NUM then "NUM"
    else if layer == LAYER_SYM then "SYM"
    else if layer == LAYER_NAV then "NAV"
    else if layer == LAYER_MEDIA then "MEDIA"
    else if layer == LAYER_FN then "FN"
    else if layer == LAYER_GAMING then "GAME"
    else "???"
  }

  /**
   * The layer name is centred over the modifier indicator: twice the middle of
   * each is `2 * column + length - 1`, and for every layer these differ by at
   * most one, so the two midpoints are at most half a column apart.
   */
  lemma LayerNameCentred(layer: uint8)
    ensures var nameMid2 := 2 * LayerColumn(layer) + |LayerName(layer)| - 1;
            var modsMid2 := 2 * MODS_COLUMN + 4 - 1;
            modsMid2 - 1 <= nameMid2 <= modsMid2
  {
  }

  /** The indicator letters and the either-hand mask each one stands for. */
  const INDICATOR_LETTERS: string := "SCAG"
  const INDICATOR_MASKS: seq<bv8> := [MOD_MASK_SHIFT, MOD_MASK_CTRL, MOD_MASK_ALT, MOD_MASK_GUI]

  /** The modifier indicator for the modifier mask `mods`. */
  function ModsIndicator(mods: bv8): (s: string)
    ensures |s| == 4
    ensures forall i :: 0 <= i < 4 ==>
      s[i] == (if mods & INDICATOR_MASKS[i] != 0 then INDICATOR_LETTERS[i] else ' ')
  {
    [ if mods & MOD_MASK_SHIFT != 0 then 'S' else ' '
    , if mods & MOD_MASK_CTRL != 0 then 'C' else ' '
    , if mods & MOD_MASK_ALT != 0 then 'A' else ' '
    , if mods & MOD_MASK_GUI != 0 then 'G' else ' ' ]
  }

  /** Position `i` of the indicator shows its letter exactly when a modifier of its kind is held. */
  lemma IndicatorShowsHeld(mods: bv8, i: nat)
    requires i < 4
    ensures ModsIndicator(mods)[i] != ' ' <==> mods & INDICATOR_MASKS[i] != 0
    ensures ModsIndicator(mods)[i] in {INDICATOR_LETTERS[i], ' '}
  {
  }

  /** Two masks show the same indicator exactly when they hold the same kinds of modifier. */
  lemma IndicatorSameIff(m1: bv8, m2: bv8)
    ensures ModsIndicator(m1) == ModsIndicator(m2) <==>
      forall i :: 0 <= i < 4 ==> (m1 & INDICATOR_MASKS[i] == 0) == (m2 & INDICATOR_MASKS[i] == 0)
  {
  }

  /** The mask with the left-hand and right-hand modifiers swapped. */
  function SwapHands(mods: bv8): bv8
  {
    (mods << 4) | (mods >> 4)
  }

  /** The indicator does not tell left from right: swapping hands shows the same letters. */
  lemma IndicatorIgnoresHand(mods: bv8)
    ensures ModsIndicator(SwapHands(mods)) == ModsIndicator(mods)
  {
  }


  /** While Hyper is held the indicator shows every letter. */
  lemma HyperShowsAll(mods: bv8)
    ensures ModsIndicator(mods | HYPR) == INDICATOR_LETTERS
  {
  }

  /** An example of the indicator's contract: with nothing held it is blank. */
  lemma NothingHeldIsBlank()
    ensures ModsIndicator(0) == "    "
  {
  }

  /**
   * The indicator buffer as the OLED task fills it: five characters, four
   * spaces and a terminating NUL, then one conditional write per kind of
   * modifier.
   */
  method FillModsBuffer(modState: bv8) returns (mods: array<char>)
    ensures fresh(mods)
    ensures mods[..] == ModsIndicator(modState) + ['\0']
  {
    mods := new char[5] [' ', ' ', ' ', ' ', '\0'];
    if modState & MOD_MASK_SHIFT != 0 { mods[0] := 'S'; }
    if modState & MOD_MASK_CTRL != 0 { mods[1] := 'C'; }
    if modState & MOD_MASK_ALT != 0 { mods[2] := 'A'; }
    if modState & MOD_MASK_GUI != 0 { mods[3] := 'G'; }
  }
}
