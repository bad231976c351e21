/** Bit-level vocabulary for 32-bit system-controller registers.

    Every register effect of the driver is a masked read-modify-write, so the
    facts about registers are stated with masks: which bits of a mask are all
    set, all clear, or untouched. */
module Bits {

  /** All bits of `m` are 1 in `x`. */
  predicate IsSet(x: bv32, m: bv32) {
    x & m == m
  }

  /** All bits of `m` are 0 in `x`. */
  predicate IsClear(x: bv32, m: bv32) {
    x & m == 0
  }

  /** `x` and `y` agree on every bit outside `m`. */
  predicate SameOutside(x: bv32, y: bv32, m: bv32) {
    x & !m == y & !m
  }

  /** The value a masked update writes back: bits inside `mask` are taken
      from `val`, all other bits keep their current value. */
  function Update(cur: bv32, mask: bv32, val: bv32): (r: bv32)
    ensures r & mask == val & mask
    ensures SameOutside(r, cur, mask)
  {
    (cur & !mask) | (val & mask)
  }

  /** A register value is determined by its bits inside a mask together
      with its bits outside it. */
  lemma MaskedParts(a: bv32, b: bv32, m: bv32)
    requires a & m == b & m
    requires SameOutside(a, b, m)
    ensures a == b
  {
  }

  /** Agreement outside a mask carries over to any larger mask. */
  lemma SameOutsideWiden(x: bv32, y: bv32, small: bv32, big: bv32)
    requires SameOutside(x, y, small)
    requires small & !big == 0
    ensures SameOutside(x, y, big)
  {
  }

  lemma SameOutsideTrans(x: bv32, y: bv32, z: bv32, m: bv32)
    requires SameOutside(x, y, m) && SameOutside(y, z, m)
    ensures SameOutside(x, z, m)
  {
  }

  /** Agreement outside `m | b` and on `b` is agreement outside `m`. */
  lemma SameOutsideNarrow(x: bv32, y: bv32, m: bv32, b: bv32)
    requires SameOutside(x, y, m | b)
    requires x & b == y & b
    ensures SameOutside(x, y, m)
  {
  }

  /** Agreement outside `m` is agreement on every `b` disjoint from `m`. */
  lemma SameOutsideOn(x: bv32, y: bv32, m: bv32, b: bv32)
    requires SameOutside(x, y, m)
    requires b & m == 0
    ensures x & b == y & b
  {
  }

  lemma IsSetUnion(x: bv32, a: bv32, b: bv32)
    requires IsSet(x, a) && IsSet(x, b)
    ensures IsSet(x, a | b)
  {
  }

  /** Agreement on two masks is agreement on their union. */
  lemma AgreeUnion(x: bv32, y: bv32, a: bv32, b: bv32)
    requires x & a == y & a && x & b == y & b
    ensures x & (a | b) == y & (a | b)
  {
  }

  /** Two values that have the same bits set and the same bits cleared
      agree on the union of those bits. */
  lemma SetClearDetermine(x: bv32, y: bv32, s: bv32, c: bv32)
    requires IsSet(x, s) && IsClear(x, c)
    requires IsSet(y, s) && IsClear(y, c)
    ensures x & (s | c) == y & (s | c)
  {
  }
}
