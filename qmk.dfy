/**
 * The facts about the keyboard firmware framework that the Corne keymap relies on:
 * its integer widths, the modifier bit layout of the 8-bit modifier mask, the
 * 32-bit layer mask with `get_highest_layer`, and the 16-bit encoding of the
 * keycodes the keymap names.  Values are the framework's public ones.
 */
module Qmk {

  type uint8 = x: int | 0 <= x < 0x100
  type uint16 = x: int | 0 <= x < 0x1_0000

  // ---------------------------------------------------------------------------
  // Modifier mask: one bit per modifier key, left hand in the low nibble.

  const MOD_BIT_LCTL: bv8 := 0x01
  const MOD_BIT_LSFT: bv8 := 0x02
  const MOD_BIT_LALT: bv8 := 0x04
  const MOD_BIT_LGUI: bv8 := 0x08
  const MOD_BIT_RCTL: bv8 := 0x10
  const MOD_BIT_RSFT: bv8 := 0x20
  const MOD_BIT_RALT: bv8 := 0x40
  const MOD_BIT_RGUI: bv8 := 0x80

  /** Either-hand masks used by the status display. */
  const MOD_MASK_SHIFT: bv8 := MOD_BIT_LSFT | MOD_BIT_RSFT
  const MOD_MASK_CTRL: bv8 := MOD_BIT_LCTL | MOD_BIT_RCTL
  const MOD_MASK_ALT: bv8 := MOD_BIT_LALT | MOD_BIT_RALT
  const MOD_MASK_GUI: bv8 := MOD_BIT_LGUI | MOD_BIT_RGUI

  /** "Hyper": left Ctrl, Alt, GUI and Shift together. */
  const HYPR: bv8 := MOD_BIT_LCTL | MOD_BIT_LALT | MOD_BIT_LGUI | MOD_BIT_LSFT

  // ---------------------------------------------------------------------------
  // Layer mask: bit n set means layer n is active.

  const LAYER_COUNT: nat := 32

  /** True when `layer` is active in the layer mask `state`. */
  predicate LayerOn(state: bv32, layer: nat)
  {
    layer < LAYER_COUNT && BitAt(state, layer as bv8)
  }

  /** Bit `k` of `state`, with the bit index as a bit-vector. */
  predicate BitAt(state: bv32, k: bv8)
  {
    k < 32 && (state >> k) & 1 == 1
  }

  /** The mask with only `layer` set: `(layer_state_t)1 << layer`. */
  function LayerBit(layer: nat): (b: bv32)
    requires layer < LAYER_COUNT
    ensures forall l: nat :: LayerOn(b, l) <==> l == layer
  {
    var b: bv32 := 1 << (layer as bv8);
    assert forall l: nat :: LayerOn(b, l) <==> l == layer by {
      forall l: nat | l < LAYER_COUNT
        ensures LayerOn(b, l) <==> l == layer
      {
        ShiftOneDown(layer, l);
      }
    }
    b
  }

  lemma ShiftOneDown(layer: nat, l: nat)
    requires layer < LAYER_COUNT && l < LAYER_COUNT
    ensures LayerOn(1 << (layer as bv8), l) <==> l == layer
  {
    ShiftOneAt(layer as bv8, l as bv8);
  }

  lemma ShiftOneAt(k: bv8, j: bv8)
    requires k < 32 && j < 32
    ensures BitAt(1 << k, j) <==> j == k
  {
  }

  /** XOR-ing in the bit of `layer` flips that layer and no other. */
  lemma XorLayerBit(state: bv32, layer: nat)
    requires layer < LAYER_COUNT
    ensures forall l: nat :: LayerOn(state ^ LayerBit(layer), l) <==> (LayerOn(state, l) != (l == layer))
  {
    var bit := LayerBit(layer);
    forall l: nat
      ensures LayerOn(state ^ bit, l) <==> (LayerOn(state, l) != (l == layer))
    {
      if l < LAYER_COUNT {
        XorBit(state, bit, l);
      }
    }
  }

  /** A bit of `a ^ b` is set exactly when it is set in one of `a` and `b`. */
  lemma XorBit(a: bv32, b: bv32, l: nat)
    requires l < LAYER_COUNT
    ensures LayerOn(a ^ b, l) <==> (LayerOn(a, l) != LayerOn(b, l))
  {
    XorBitAt(a, b, l as bv8);
  }

  lemma XorBitAt(a: bv32, b: bv32, k: bv8)
    requires k < 32
    ensures BitAt(a ^ b, k) <==> (BitAt(a, k) != BitAt(b, k))
  {
  }

  /** No bit above bit `k` is set in `state`. */
  predicate NoneAbove(state: bv32, k: bv8)
  {
    k >= 31 || state >> (k + 1) == 0
  }

  lemma NoneAboveMeansOff(state: bv32, k: bv8)
    requires k < 32 && NoneAbove(state, k)
    ensures forall l: nat :: k as nat < l ==> !LayerOn(state, l)
  {
  }


  /**
   * `get_highest_layer`: the highest active layer of `state`, and layer 0
   * (the base layer) when no layer is active.
   */
  function HighestLayer(state: bv32): (r: nat)
    ensures r < LAYER_COUNT
    ensures state != 0 ==> LayerOn(state, r)
    ensures forall l: nat :: r < l ==> !LayerOn(state, l)
    ensures state == 0 ==> r == 0
  {
    var k := HighestAtMost(state, 31);
    NoneAboveMeansOff(state, k);
    k as nat
  }

  /** Scans bits `top`, `top - 1`, ..., 1 of `state` for the first one set. */
  function HighestAtMost(state: bv32, top: bv8): (r: bv8)
    requires top < 32 && NoneAbove(state, top)
    ensures r <= top && NoneAbove(state, r)
    ensures state != 0 ==> BitAt(state, r)
    ensures state == 0 ==> r == 0
    decreases top as int
  {
    if top == 0 || BitAt(state, top) then
      top
    else
      HighestAtMost(state, top - 1)
  }

  // ---------------------------------------------------------------------------
  // Keycodes.  A plain key is its 8-bit HID usage; a mod-tap key (`MT`, and the
  // `LCTL_T`-style aliases) packs a 5-bit modifier set and the tapped key.

  const KC_A: uint16 := 0x04
  const KC_D: uint16 := 0x07
  const KC_F: uint16 := 0x09
  const KC_J: uint16 := 0x0D
  const KC_K: uint16 := 0x0E
  const KC_L: uint16 := 0x0F
  const KC_S: uint16 := 0x16
  const KC_SPACE: uint16 := 0x2C
  const KC_QUOT: uint16 := 0x34

  /** 5-bit modifier sets of mod-tap keys (bit 4 selects the right hand). */
  const MOD_LCTL: nat := 0x01
  const MOD_LSFT: nat := 0x02
  const MOD_LALT: nat := 0x04
  const MOD_LGUI: nat := 0x08
  const MOD_RCTL: nat := 0x11
  const MOD_RSFT: nat := 0x12
  const MOD_RGUI: nat := 0x18

  const QK_MOD_TAP: uint16 := 0x2000
  const QK_MOD_TAP_MAX: uint16 := 0x3FFF

  /** First keycode free for a keymap's own keycodes. */
  const SAFE_RANGE: uint16 := 0x7E40

  /** `MT(mod, kc)`: the keycode that acts as `mod` when held and `kc` when tapped. */
  function ModTap(mod: nat, kc: uint16): (code: uint16)
    requires mod < 0x20 && kc < 0x100
    ensures QK_MOD_TAP <= code <= QK_MOD_TAP_MAX
    ensures ModTapMods(code) == mod && ModTapKey(code) == kc
  {
    QK_MOD_TAP + mod * 0x100 + kc
  }

  /** The modifier set of a mod-tap keycode. */
  function ModTapMods(code: uint16): nat
    requires QK_MOD_TAP <= code <= QK_MOD_TAP_MAX
  {
    (code - QK_MOD_TAP) / 0x100
  }

  /** The tapped key of a mod-tap keycode. */
  function ModTapKey(code: uint16): uint16
    requires QK_MOD_TAP <= code <= QK_MOD_TAP_MAX
  {
    (code - QK_MOD_TAP) % 0x100
  }
}
