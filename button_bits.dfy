/** The 32-bit `buttons` word and the single-bit updates a HID button usage makes. */
module ButtonBits {
  /** `1 << j` in a 32-bit word. */
  function BitOf(j: bv5): bv32
  {
    (1 as bv32) << (j as bv32)
  }

  /** Bit j of `buttons`. */
  predicate ButtonSet(b: bv32, j: bv5)
  {
    b & BitOf(j) != 0
  }

  /** `buttons` after a button usage: bit `bit` set for a non-zero value,
      cleared for zero. */
  function ButtonsAfter(b: bv32, bit: bv5, pressed: bool): bv32
  {
    if pressed then b | BitOf(bit) else b & !BitOf(bit)
  }

  /** Setting or clearing one bit leaves every other bit alone. */
  lemma SetOther(b: bv32, k: bv5, j: bv5)
    requires j != k
    ensures ButtonSet(b | BitOf(k), j) == ButtonSet(b, j)
  {
  }

  lemma ClearOther(b: bv32, k: bv5, j: bv5)
    requires j != k
    ensures ButtonSet(b & !BitOf(k), j) == ButtonSet(b, j)
  {
  }

  /** Setting a bit sets it; clearing it clears it. */
  lemma SetSelf(b: bv32, k: bv5)
    ensures ButtonSet(b | BitOf(k), k)
  {
  }

  lemma ClearSelf(b: bv32, k: bv5)
    ensures !ButtonSet(b & !BitOf(k), k)
  {
  }

  /** Setting a set bit, or clearing a clear one, changes nothing. */
  lemma SetNoop(b: bv32, k: bv5)
    requires b & BitOf(k) != 0
    ensures b | BitOf(k) == b
  {
  }

  lemma ClearNoop(b: bv32, k: bv5)
    requires b & BitOf(k) == 0
    ensures b & !BitOf(k) == b
  {
  }

  /** Only the addressed bit takes the new state; every other bit keeps its own. */
  lemma ButtonsAfterBits(b: bv32, bit: bv5, pressed: bool, j: bv5)
    ensures ButtonSet(ButtonsAfter(b, bit, pressed), j) <==> if j == bit then pressed else ButtonSet(b, j)
  {
    if pressed {
      if j == bit {
        SetSelf(b, bit);
      } else {
        SetOther(b, bit, j);
      }
    } else {
      if j == bit {
        ClearSelf(b, bit);
      } else {
        ClearOther(b, bit, j);
      }
    }
  }

  /** The word changes exactly when the addressed bit flips. */
  lemma ButtonsAfterChanges(b: bv32, bit: bv5, pressed: bool)
    ensures ButtonsAfter(b, bit, pressed) != b <==> ButtonSet(b, bit) != pressed
  {
    if pressed {
      if ButtonSet(b, bit) {
        SetNoop(b, bit);
      } else {
        SetSelf(b, bit);
      }
    } else {
      if ButtonSet(b, bit) {
        ClearSelf(b, bit);
      } else {
        ClearNoop(b, bit);
      }
    }
  }
}
