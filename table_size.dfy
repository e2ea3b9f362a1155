/**
 * The arithmetic of tt_setsize (src/tt.c): a byte count held in a C `int`
 * is rounded down to a power of two by smearing the leading one bit
 * rightwards and then halving the next power of two.
 *
 * The `int` is a 32-bit two's complement word; `>>` on it is the
 * arithmetic (sign-copying) shift of the compilers the engine is built
 * with, `Asr` below.
 */
module TableSize {

  type Int32 = bv32

  const SIGN: Int32 := 0x8000_0000

  /** The word read as a signed `int` is negative. */
  predicate Negative(x: Int32) {
    x & SIGN != 0
  }

  /** The signed comparison `x < 16`. */
  predicate BelowSixteen(x: Int32) {
    Negative(x) || x < 16
  }

  /** The shift amounts the smearing loop uses: i = 1, 2, 4, 8, 16. */
  predicate IsShift(k: int) {
    k == 1 || k == 2 || k == 4 || k == 8 || k == 16
  }

  /** `x >> k` on a signed `int`: the vacated top bits are copies of the sign bit. */
  function Asr(x: Int32, k: int): Int32
    requires IsShift(k)
  {
    var fill: Int32 := if Negative(x) then 0xFFFF_FFFF else 0;
    if k == 1 then (x >> 1) | (fill << 31)
    else if k == 2 then (x >> 2) | (fill << 30)
    else if k == 4 then (x >> 4) | (fill << 28)
    else if k == 8 then (x >> 8) | (fill << 24)
    else (x >> 16) | (fill << 16)
  }

  /** One pass of the loop body, `size |= size >> i`; the loop never uses another `i`. */
  function ShiftOr(size: Int32, i: int): Int32 {
    if IsShift(i) then size | Asr(size, i) else size
  }

  /** The same pass with an unsigned (logical) shift. */
  function ShiftOrLogical(size: Int32, i: int): Int32 {
    if i == 1 then size | (size >> 1)
    else if i == 2 then size | (size >> 2)
    else if i == 4 then size | (size >> 4)
    else if i == 8 then size | (size >> 8)
    else if i == 16 then size | (size >> 16)
    else size
  }

  /** The value after the passes for 1, 2, ..., i / 2 of `for (i = 1; i < 32; i = i * 2)`. */
  function Passes(pass: (Int32, int) -> Int32, x: Int32, i: int): Int32
    requires IsShift(i) || i == 32
  {
    if i == 1 then x else pass(Passes(pass, x, i / 2), i / 2)
  }

  /** The loop of tt_setsize run to completion on `x`. */
  function Smear(x: Int32): Int32 {
    Passes(ShiftOr, x, 32)
  }

  /** The same loop with unsigned shifts. */
  function SmearLogical(x: Int32): Int32 {
    Passes(ShiftOrLogical, x, 32)
  }

  /** `size & (size - 1)` is zero: the size is zero or a single bit (INT_MIN included). */
  predicate SingleOrZero(size: Int32) {
    size & (size - 1) == 0
  }

  /** `size++; size >>= 1;` done unsigned, which is what the rounding needs. */
  function Halve(y: Int32): Int32 {
    (y + 1) >> 1
  }

  /** `size++; size >>= 1;` as written: the increment may reach INT_MIN and the shift then copies its sign bit. */
  function HalveAsWritten(y: Int32): Int32 {
    Asr(y + 1, 1)
  }

  /** The byte count tt_setsize settles on (the rounding with its final shift unsigned). */
  function RoundDown(size: Int32): Int32 {
    if SingleOrZero(size) then size else Halve(Smear(size - 1))
  }

  /** The byte count tt_setsize settles on, exactly as written. */
  function RoundDownAsWritten(size: Int32): Int32 {
    if SingleOrZero(size) then size else HalveAsWritten(Smear(size - 1))
  }

  /** A single one bit. */
  predicate IsPowerOfTwo(r: Int32) {
    r != 0 && r & (r - 1) == 0
  }

  /** `r` is the largest power of two not above `size`: a power of two, at most `size`, and more than half of it. */
  predicate LargestPowerBelow(size: Int32, r: Int32) {
    IsPowerOfTwo(r) && r <= size && size >> 1 < r
  }

  /** `y` is `x` with every bit below its leading one set, and no other bit. */
  predicate SmearedFrom(x: Int32, y: Int32) {
    y & (y + 1) == 0 && x <= y && y >> 1 <= x && !Negative(y)
  }

  /* ---------------------------------------------------------------- */
  /* Unrolling the loop                                                */
  /* ---------------------------------------------------------------- */

  /** The five passes in a row. */
  lemma PassesUnrolled(pass: (Int32, int) -> Int32, x: Int32)
    ensures Passes(pass, x, 32) == pass(pass(pass(pass(pass(x, 1), 2), 4), 8), 16)
  {
    assert Passes(pass, x, 2) == pass(x, 1);
    assert Passes(pass, x, 4) == pass(pass(x, 1), 2);
    assert Passes(pass, x, 8) == pass(pass(pass(x, 1), 2), 4);
    assert Passes(pass, x, 16) == pass(pass(pass(pass(x, 1), 2), 4), 8);
  }

  function Unrolled(x: Int32): Int32 {
    ShiftOr(ShiftOr(ShiftOr(ShiftOr(ShiftOr(x, 1), 2), 4), 8), 16)
  }

  function UnrolledLogical(x: Int32): Int32 {
    ShiftOrLogical(ShiftOrLogical(ShiftOrLogical(ShiftOrLogical(ShiftOrLogical(x, 1), 2), 4), 8), 16)
  }

  lemma UnrolledNonNegative(x: Int32)
    requires !Negative(x)
    ensures Unrolled(x) == UnrolledLogical(x)
  {
  }

  lemma UnrolledNegative(x: Int32)
    requires Negative(x)
    ensures Unrolled(x) == 0xFFFF_FFFF
  {
  }

  lemma UnrolledOnes(x: Int32)
    ensures var y := UnrolledLogical(x); y & (y + 1) == 0
  {
  }

  lemma UnrolledAbove(x: Int32)
    ensures x <= UnrolledLogical(x)
  {
  }

  lemma UnrolledBelow(x: Int32)
    ensures UnrolledLogical(x) >> 1 <= x
  {
  }

  lemma UnrolledSign(x: Int32)
    requires !Negative(x)
    ensures !Negative(UnrolledLogical(x))
  {
  }

  /* ---------------------------------------------------------------- */
  /* What the loop computes                                            */
  /* ---------------------------------------------------------------- */

  /** On a non-negative `int` the arithmetic shifts of the loop act as unsigned shifts. */
  lemma SmearNonNegative(x: Int32)
    requires !Negative(x)
    ensures Smear(x) == SmearLogical(x)
  {
    PassesUnrolled(ShiftOr, x);
    PassesUnrolled(ShiftOrLogical, x);
    UnrolledNonNegative(x);
  }

  /** On a negative `int` the sign bit is smeared over the whole word: the loop ends at -1. */
  lemma SmearNegative(x: Int32)
    requires Negative(x)
    ensures Smear(x) == 0xFFFF_FFFF
  {
    PassesUnrolled(ShiftOr, x);
    UnrolledNegative(x);
  }

  lemma SmearLogicalOnes(x: Int32)
    ensures var y := SmearLogical(x); y & (y + 1) == 0
  {
    PassesUnrolled(ShiftOrLogical, x);
    UnrolledOnes(x);
  }

  lemma SmearLogicalAbove(x: Int32)
    ensures x <= SmearLogical(x)
  {
    PassesUnrolled(ShiftOrLogical, x);
    UnrolledAbove(x);
  }

  lemma SmearLogicalBelow(x: Int32)
    ensures SmearLogical(x) >> 1 <= x
  {
    PassesUnrolled(ShiftOrLogical, x);
    UnrolledBelow(x);
  }

  lemma SmearLogicalSign(x: Int32)
    requires !Negative(x)
    ensures !Negative(SmearLogical(x))
  {
    PassesUnrolled(ShiftOrLogical, x);
    UnrolledSign(x);
  }

  /** The loop turns a non-negative `x` into the all-ones word just covering it. */
  lemma SmearShape(x: Int32)
    requires !Negative(x)
    ensures SmearedFrom(x, Smear(x))
  {
    SmearNonNegative(x);
    SmearLogicalOnes(x);
    SmearLogicalAbove(x);
    SmearLogicalBelow(x);
    SmearLogicalSign(x);
  }

  lemma NotSingleDecrement(size: Int32)
    requires !Negative(size) && !SingleOrZero(size)
    ensures !Negative(size - 1)
  {
  }

  lemma HalveSmeared(size: Int32, y: Int32)
    requires !Negative(size) && !SingleOrZero(size)
    requires SmearedFrom(size - 1, y)
    ensures LargestPowerBelow(size, Halve(y))
  {
  }

  /* ---------------------------------------------------------------- */
  /* The rounding                                                      */
  /* ---------------------------------------------------------------- */

  /** A positive size is rounded down to the largest power of two not above it; a power of two is kept. */
  lemma RoundDownIsLargestPower(size: Int32)
    requires !Negative(size) && size != 0
    ensures LargestPowerBelow(size, RoundDown(size))
    ensures IsPowerOfTwo(size) ==> RoundDown(size) == size
  {
    if !SingleOrZero(size) {
      NotSingleDecrement(size);
      SmearShape(size - 1);
      HalveSmeared(size, Smear(size - 1));
    }
  }

  lemma NegativeDecrement(size: Int32)
    requires Negative(size) && !SingleOrZero(size)
    ensures Negative(size - 1)
  {
  }

  /** A zero or negative size always ends below sixteen bytes, so the table is switched off. */
  lemma RoundDownNotPositive(size: Int32)
    requires Negative(size) || size == 0
    ensures BelowSixteen(RoundDown(size)) && BelowSixteen(RoundDownAsWritten(size))
  {
    if !SingleOrZero(size) {
      NegativeDecrement(size);
      SmearNegative(size - 1);
    }
  }

  lemma HalveAgrees(y: Int32)
    requires !Negative(y + 1)
    ensures HalveAsWritten(y) == Halve(y)
  {
  }

  lemma SmearedBelowLimit(size: Int32, y: Int32)
    requires !Negative(size) && !SingleOrZero(size) && size <= 0x4000_0000
    requires SmearedFrom(size - 1, y)
    ensures !Negative(y + 1)
  {
  }

  /** Up to 2^30 bytes (the advertised maximum of the UCI Hash option, 1024 MB, which uci.c does not enforce) the code as written rounds correctly. */
  lemma AsWrittenAgreesUpTo2To30(size: Int32)
    requires !Negative(size) && size <= 0x4000_0000
    ensures RoundDownAsWritten(size) == RoundDown(size)
  {
    if !SingleOrZero(size) {
      NotSingleDecrement(size);
      SmearShape(size - 1);
      SmearedBelowLimit(size, Smear(size - 1));
      HalveAgrees(Smear(size - 1));
    }
  }

  /**
   * Above 2^30 the smear reaches INT_MAX, `size++` wraps to INT_MIN and the
   * arithmetic `size >>= 1` keeps it negative: 1572864000 bytes (1500 MB)
   * switch the table off instead of giving 2^30 bytes.
   */
  lemma AsWrittenOverflows()
    ensures RoundDownAsWritten(1572864000) == 0xC000_0000
    ensures BelowSixteen(RoundDownAsWritten(1572864000))
    ensures RoundDown(1572864000) == 0x4000_0000
  {
    assert !SingleOrZero(1572864000);
    PassesUnrolled(ShiftOr, 1572863999);
    assert Smear(1572863999) == 0x7FFF_FFFF;
  }

  /** The size main passes to tt_init, 144000000 bytes, becomes 2^27 bytes, i.e. 2^23 entries. */
  lemma EngineDefaultSize()
    ensures RoundDown(144000000) == 0x0800_0000
    ensures RoundDownAsWritten(144000000) == 0x0800_0000
    ensures (RoundDown(144000000) >> 4) as int - 1 == 0x7F_FFFF
  {
    assert !SingleOrZero(144000000);
    PassesUnrolled(ShiftOr, 143999999);
    assert Smear(143999999) == 0x0FFF_FFFF;
  }
}
