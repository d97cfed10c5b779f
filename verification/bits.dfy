/** Read-modify-write arithmetic on 32-bit peripheral registers.

    Every GPIO configuration register of the port holds one 2-bit field per
    line (mode, pull, speed) or one bit per line (output type, input data,
    output data). A 2-bit field is addressed by its bit offset, a `bv5`.
 */
module Bits {

  /** Bit position of a 2-bit field: even, and the field fits in 32 bits. */
  predicate FieldOffset2(off: bv5) {
    off <= 30 && off & 1 == 0
  }

  /** The two bits of the field at `off`: `0x3 << off`. */
  function FieldMask(off: bv5): bv32
    requires off <= 30
  {
    0x3 << off
  }

  /** The field at `off` holds the 2-bit value `code & 0x3`. */
  predicate FieldHolds(reg: bv32, off: bv5, code: bv32)
    requires off <= 30
  {
    reg & FieldMask(off) == (code & 0x3) << off
  }

  /** Register `now` differs from `before` at most inside the field at `off`. */
  predicate SameOutside(now: bv32, before: bv32, off: bv5)
    requires off <= 30
  {
    now & !FieldMask(off) == before & !FieldMask(off)
  }

  /** The 2-bit field at `off`, right-aligned. */
  function ReadField(reg: bv32, off: bv5): (v: bv32)
    requires off <= 30
    ensures v <= 3
  {
    (reg >> off) & 0x3
  }

  /** `(reg & ~(0x3 << off)) | ((code & 0x3) << off)`: clear the field, then
      OR in the low two bits of `code`. Afterwards the field holds the code and
      every bit outside it is as it was. */
  function WriteField(reg: bv32, off: bv5, code: bv32): (r: bv32)
    requires off <= 30
    ensures FieldHolds(r, off, code)
    ensures SameOutside(r, reg, off)
  {
    (reg & !FieldMask(off)) | ((code & 0x3) << off)
  }

  /** The single bit `1 << n`. */
  function BitMask(n: bv5): bv32
  {
    1 << n
  }

  /** Bit `n` of `reg` is set. */
  predicate BitSet(reg: bv32, n: bv5) {
    (reg >> n) & 1 == 1
  }

  /** A field holds a 2-bit code exactly when reading it back yields that
      code. */
  lemma FieldHoldsIffRead(reg: bv32, off: bv5, code: bv32)
    requires off <= 30 && code <= 3
    ensures FieldHolds(reg, off, code) <==> ReadField(reg, off) == code
  {
  }

  /** Registers that agree outside the field at `off` agree on every other
      field. */
  lemma SameOutsideKeepsOtherFields(now: bv32, before: bv32, off: bv5, other: bv5)
    requires FieldOffset2(off) && FieldOffset2(other) && off != other
    requires SameOutside(now, before, off)
    ensures ReadField(now, other) == ReadField(before, other)
  {
  }

  /** Setting bits with OR never clears a bit and is idempotent. */
  lemma OrSetsMonotone(reg: bv32, mask: bv32)
    ensures (reg | mask) & reg == reg
    ensures (reg | mask) & mask == mask
    ensures (reg | mask) | mask == reg | mask
  {
  }
}
