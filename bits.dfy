/**
 * Bitboard primitives of the engine (src/bitboard.h): 64-bit boards, the
 * little-endian rank-file square numbering, the lowest-one-bit tricks, the
 * bit scan, the population count and the eight one-step shifts.
 *
 * A square is a 6-bit value, so every square 0..63 is representable and no
 * other is; a bitboard is a 64-bit word whose bit `s` stands for square `s`.
 */
module Bits {

  type Bitboard = bv64
  type Square = bv6

  const EMPTY: Bitboard := 0
  const FULL: Bitboard := 0xFFFF_FFFF_FFFF_FFFF

  const RANK1: Bitboard := 0x0000_0000_0000_00FF
  const RANK2: Bitboard := 0x0000_0000_0000_FF00
  const RANK3: Bitboard := 0x0000_0000_00FF_0000
  const RANK4: Bitboard := 0x0000_0000_FF00_0000
  const RANK5: Bitboard := 0x0000_00FF_0000_0000
  const RANK6: Bitboard := 0x0000_FF00_0000_0000
  const RANK7: Bitboard := 0x00FF_0000_0000_0000
  const RANK8: Bitboard := 0xFF00_0000_0000_0000

  const FILEA: Bitboard := 0x0101_0101_0101_0101
  const FILEB: Bitboard := 0x0202_0202_0202_0202
  const FILEC: Bitboard := 0x0404_0404_0404_0404
  const FILED: Bitboard := 0x0808_0808_0808_0808
  const FILEE: Bitboard := 0x1010_1010_1010_1010
  const FILEF: Bitboard := 0x2020_2020_2020_2020
  const FILEG: Bitboard := 0x4040_4040_4040_4040
  const FILEH: Bitboard := 0x8080_8080_8080_8080

  /** The first and last ranks together (promotion ranks). */
  const RANK18: Bitboard := RANK1 | RANK8

  /** The enum counts: `TOTAL_SQUARES` is 64 and `NONE_SQUARE`, the next enumerator, is 65. */
  const TOTAL_SQUARES: int := 64
  const NONE_SQUARE: int := 65

  /** The squares the engine names explicitly (castling, en passant, tests). */
  const A1: Square := 0
  const B1: Square := 1
  const C1: Square := 2
  const D1: Square := 3
  const E1: Square := 4
  const F1: Square := 5
  const G1: Square := 6
  const H1: Square := 7
  const A2: Square := 8
  const B2: Square := 9
  const G2: Square := 14
  const H2: Square := 15
  const D4: Square := 27
  const E4: Square := 28
  const D5: Square := 35
  const A7: Square := 48
  const D6: Square := 43
  const B7: Square := 49
  const C7: Square := 50
  const H7: Square := 55
  const A8: Square := 56
  const B8: Square := 57
  const C8: Square := 58
  const D8: Square := 59
  const E8: Square := 60
  const F8: Square := 61
  const G8: Square := 62
  const H8: Square := 63

  function RankOf(s: Square): Square { s / 8 }
  function FileOf(s: Square): Square { s % 8 }

  /** Square number of the given rank and file (both 0-based): a1 = 0, h1 = 7, a8 = 56, h8 = 63. */
  function SquareAt(rank: Square, file: Square): (s: Square)
    requires rank < 8 && file < 8
    ensures RankOf(s) == rank && FileOf(s) == file
  {
    8 * rank + file
  }

  /** Every square is `8*rank + file` of its own rank and file. */
  lemma SquareNumbering(s: Square)
    ensures RankOf(s) < 8 && FileOf(s) < 8
    ensures s == SquareAt(RankOf(s), FileOf(s))
  {
  }

  /** The named squares follow that numbering. */
  lemma NamedSquares()
    ensures A1 == SquareAt(0, 0) && H1 == SquareAt(0, 7) && E1 == SquareAt(0, 4)
    ensures A8 == SquareAt(7, 0) && H8 == SquareAt(7, 7) && E8 == SquareAt(7, 4)
    ensures D4 == SquareAt(3, 3) && E4 == SquareAt(3, 4) && D5 == SquareAt(4, 3)
    ensures TOTAL_SQUARES == H8 as int + 1 && NONE_SQUARE == TOTAL_SQUARES + 1
  {
  }

  /** SQ64: the one-square board of `s`. */
  function Sq64(s: Square): Bitboard { 1 << s }

  /** Bit `t` of `bb` is set. */
  predicate Has(bb: Bitboard, t: Square) { bb & Sq64(t) != 0 }

  /** `x` has exactly one set bit. */
  predicate IsSingle(x: Bitboard) { x != 0 && x & (x - 1) == 0 }

  /** `a` and `b` share no square. */
  predicate Disjoint(a: Bitboard, b: Bitboard) { a & b == 0 }

  /** `a` is contained in `b`. */
  predicate Within(a: Bitboard, b: Bitboard) { a & b == a }

  /** SQ64(s) is a single-bit board holding `s` and no other square. */
  lemma Sq64Single(s: Square)
    ensures IsSingle(Sq64(s))
  {
  }

  lemma Sq64Has(s: Square, t: Square)
    ensures Has(Sq64(s), t) <==> t == s
  {
  }

  /** The rank board of rank `r` (0-based). */
  function RankBoard(r: Square): Bitboard
    requires r < 8
  {
    RANK1 << (8 * r)
  }

  /** The file board of file `f` (0-based). */
  function FileBoard(f: Square): Bitboard
    requires f < 8
  {
    FILEA << f
  }

  /** The RANK1..RANK8 constants, lowest first. */
  const RANKS: seq<Bitboard> := [RANK1, RANK2, RANK3, RANK4, RANK5, RANK6, RANK7, RANK8]

  /** The FILEA..FILEH constants, a-file first. */
  const FILES: seq<Bitboard> := [FILEA, FILEB, FILEC, FILED, FILEE, FILEF, FILEG, FILEH]

  lemma RankConstants()
    ensures forall r: Square :: r < 8 ==> RANKS[r] == RankBoard(r)
  {
    forall r: Square | r < 8
      ensures RANKS[r] == RankBoard(r)
    {
      if r == 0 {} else if r == 1 {} else if r == 2 {} else if r == 3 {}
      else if r == 4 {} else if r == 5 {} else if r == 6 {} else {}
    }
  }

  lemma FileConstants()
    ensures forall f: Square :: f < 8 ==> FILES[f] == FileBoard(f)
  {
    forall f: Square | f < 8
      ensures FILES[f] == FileBoard(f)
    {
      if f == 0 {} else if f == 1 {} else if f == 2 {} else if f == 3 {}
      else if f == 4 {} else if f == 5 {} else if f == 6 {} else {}
    }
  }

  /** A square lies on the rank board of its own rank and on no other. */
  lemma RankBoardHas(r: Square, s: Square)
    requires r < 8
    ensures Has(RankBoard(r), s) <==> RankOf(s) == r
  {
  }

  /** A square lies on the file board of its own file and on no other. */
  lemma FileBoardHas(f: Square, s: Square)
    requires f < 8
    ensures Has(FileBoard(f), s) <==> FileOf(s) == f
  {
  }

  /** The eight RANK constants are pairwise disjoint and cover the board. */
  lemma RanksPartition()
    ensures forall i, j :: 0 <= i < j < 8 ==> Disjoint(RANKS[i], RANKS[j])
    ensures RANK1 | RANK2 | RANK3 | RANK4 | RANK5 | RANK6 | RANK7 | RANK8 == FULL
  {
  }

  /** The eight FILE constants are pairwise disjoint and cover the board. */
  lemma FilesPartition()
    ensures forall i, j :: 0 <= i < j < 8 ==> Disjoint(FILES[i], FILES[j])
    ensures FILEA | FILEB | FILEC | FILED | FILEE | FILEF | FILEG | FILEH == FULL
  {
  }

  /** LS1B: the least significant one bit of `x` (or 0 when there is none). */
  function Ls1b(x: Bitboard): Bitboard { x & -x }

  /** RESET_LS1B: `x` with its least significant one bit cleared. */
  function ResetLs1b(x: Bitboard): Bitboard { x & (x - 1) }

  /** LS1B is empty exactly for the empty board. */
  lemma Ls1bZero(x: Bitboard)
    ensures Ls1b(x) == 0 <==> x == 0
  {
  }

  /** LS1B of a non-empty board is one of its bits, and no bit of `x` lies below it. */
  lemma Ls1bIsLowestBit(x: Bitboard)
    requires x != 0
    ensures IsSingle(Ls1b(x))
    ensures Within(Ls1b(x), x)
    ensures x & (Ls1b(x) - 1) == 0
  {
    Ls1bZero(x);
    Ls1bSingle(x);
    Ls1bWithin(x);
    Ls1bNothingBelow(x);
  }

  lemma Ls1bSingle(x: Bitboard)
    ensures Ls1b(x) & (Ls1b(x) - 1) == 0
  {
  }

  lemma Ls1bWithin(x: Bitboard)
    ensures Ls1b(x) & x == Ls1b(x)
  {
  }

  lemma Ls1bNothingBelow(x: Bitboard)
    ensures x & (Ls1b(x) - 1) == 0
  {
  }

  /** RESET_LS1B removes exactly the LS1B bit and nothing else. */
  lemma ResetLs1bSplits(x: Bitboard)
    ensures ResetLs1b(x) | Ls1b(x) == x
    ensures Disjoint(ResetLs1b(x), Ls1b(x))
  {
  }

  lemma ResetLs1bDecreases(x: Bitboard)
    requires x != 0
    ensures ResetLs1b(x) < x
  {
  }

  /** Number of set bits (bitboard_IPopCount), one RESET_LS1B step per bit. */
  function PopCount(x: Bitboard): nat
    decreases x
  {
    if x == 0 then 0
    else
      ResetLs1bDecreases(x);
      1 + PopCount(ResetLs1b(x))
  }

  /** No square of `x` lies below `k`. */
  predicate NoneBelow(x: Bitboard, k: Square) { x & (Sq64(k) - 1) == 0 }

  /** Lowest set square of `x` at or above `k`, given that none lies below `k`. */
  function ScanFrom(x: Bitboard, k: Square): (s: Square)
    requires x != 0 && NoneBelow(x, k)
    ensures Has(x, s) && NoneBelow(x, s)
    decreases 63 - k
  {
    if Has(x, k) then
      k
    else
      ScanStep(x, k);
      ScanFrom(x, k + 1)
  }

  lemma ScanStep(x: Bitboard, k: Square)
    requires x != 0 && NoneBelow(x, k) && !Has(x, k)
    ensures k < 63 && NoneBelow(x, k + 1)
  {
    if k == 63 {
      TopBit(x, Sq64(k));
    } else {
      BelowNext(k);
      BothClear(x, Sq64(k) - 1, Sq64(k));
    }
  }

  lemma BelowNext(k: Square)
    requires k < 63
    ensures Sq64(k + 1) - 1 == (Sq64(k) - 1) | Sq64(k)
  {
  }

  lemma BothClear(x: Bitboard, a: Bitboard, b: Bitboard)
    requires x & a == 0 && x & b == 0
    ensures x & (a | b) == 0
  {
  }

  lemma TopBit(x: Bitboard, a: Bitboard)
    requires a == 1 << 63 && x != 0 && x & (a - 1) == 0
    ensures x & a != 0
  {
  }

  /**
   * bitboard_bitScanForward: index of the least significant one bit; the
   * caller must pass a non-empty board.
   */
  function BitScanForward(bb: Bitboard): Square
    requires bb != 0
  {
    ScanFrom(bb, 0)
  }

  /** The bit scan finds a square of `bb`, and its board is LS1B(bb). */
  lemma BitScanForwardIsLs1b(bb: Bitboard)
    requires bb != 0
    ensures Has(bb, BitScanForward(bb))
    ensures Sq64(BitScanForward(bb)) == Ls1b(bb)
    ensures ResetLs1b(bb) == bb ^ Sq64(BitScanForward(bb))
  {
    LowestIsLs1b(bb, ScanFrom(bb, 0));
  }

  lemma LowestIsLs1b(x: Bitboard, s: Square)
    requires Has(x, s) && NoneBelow(x, s)
    ensures Sq64(s) == Ls1b(x)
    ensures ResetLs1b(x) == x ^ Sq64(s)
  {
    Sq64Single(s);
    LowestBitGeneric(x, Sq64(s));
    ResetIsXorGeneric(x, Sq64(s));
  }

  lemma LowestBitGeneric(x: Bitboard, a: Bitboard)
    requires a != 0 && a & (a - 1) == 0 && x & a != 0 && x & (a - 1) == 0
    ensures x & -x == a
  {
  }

  lemma ResetIsXorGeneric(x: Bitboard, a: Bitboard)
    requires a == x & -x
    ensures x & (x - 1) == x ^ a
  {
  }

  /** Clearing the scanned square lowers the population count by one. */
  lemma PopCountClearScanned(bb: Bitboard)
    requires bb != 0
    ensures PopCount(bb ^ Sq64(BitScanForward(bb))) == PopCount(bb) - 1
  {
    BitScanForwardIsLs1b(bb);
  }

  /* The eight one-step shifts; squares pushed across the A/H edge are dropped. */

  function NortOne(b: Bitboard): Bitboard { b << 8 }
  function SoutOne(b: Bitboard): Bitboard { b >> 8 }
  function EastOne(b: Bitboard): Bitboard { (b << 1) & !FILEA }
  function NoEaOne(b: Bitboard): Bitboard { (b << 9) & !FILEA }
  function SoEaOne(b: Bitboard): Bitboard { (b >> 7) & !FILEA }
  function WestOne(b: Bitboard): Bitboard { (b >> 1) & !FILEH }
  function SoWeOne(b: Bitboard): Bitboard { (b >> 9) & !FILEH }
  function NoWeOne(b: Bitboard): Bitboard { (b << 7) & !FILEH }

  /* Each shift moves a single square one step, or drops it at the board edge. */

  lemma NortOneSq(s: Square)
    ensures NortOne(Sq64(s)) == if RankOf(s) < 7 then Sq64(s + 8) else 0
  {
  }

  lemma SoutOneSq(s: Square)
    ensures SoutOne(Sq64(s)) == if RankOf(s) > 0 then Sq64(s - 8) else 0
  {
  }

  lemma EastOneSq(s: Square)
    ensures EastOne(Sq64(s)) == if FileOf(s) < 7 then Sq64(s + 1) else 0
  {
  }

  lemma WestOneSq(s: Square)
    ensures WestOne(Sq64(s)) == if FileOf(s) > 0 then Sq64(s - 1) else 0
  {
  }

  lemma NoEaOneSq(s: Square)
    ensures NoEaOne(Sq64(s)) == if RankOf(s) < 7 && FileOf(s) < 7 then Sq64(s + 9) else 0
  {
  }

  lemma NoWeOneSq(s: Square)
    ensures NoWeOne(Sq64(s)) == if RankOf(s) < 7 && FileOf(s) > 0 then Sq64(s + 7) else 0
  {
  }

  lemma SoEaOneSq(s: Square)
    ensures SoEaOne(Sq64(s)) == if RankOf(s) > 0 && FileOf(s) < 7 then Sq64(s - 7) else 0
  {
  }

  lemma SoWeOneSq(s: Square)
    ensures SoWeOne(Sq64(s)) == if RankOf(s) > 0 && FileOf(s) > 0 then Sq64(s - 9) else 0
  {
  }

  /* Shifting a whole board moves every square one step; what crosses the A/H edge is dropped. */

  lemma Shl7Has(x: Bitboard, t: Square)
    ensures Has(x << 7, t) <==> t >= 7 && Has(x, t - 7)
  {
  }

  lemma Shr7Has(x: Bitboard, t: Square)
    ensures Has(x >> 7, t) <==> t < 57 && Has(x, t + 7)
  {
  }

  lemma Shl8Has(x: Bitboard, t: Square)
    ensures Has(x << 8, t) <==> t >= 8 && Has(x, t - 8)
  {
  }

  lemma Shr8Has(x: Bitboard, t: Square)
    ensures Has(x >> 8, t) <==> t < 56 && Has(x, t + 8)
  {
  }

  lemma Shl9Has(x: Bitboard, t: Square)
    ensures Has(x << 9, t) <==> t >= 9 && Has(x, t - 9)
  {
  }

  lemma Shr9Has(x: Bitboard, t: Square)
    ensures Has(x >> 9, t) <==> t < 55 && Has(x, t + 9)
  {
  }

  lemma OffFileHas(t: Square)
    ensures Has(!FILEA, t) <==> FileOf(t) != 0
    ensures Has(!FILEH, t) <==> FileOf(t) != 7
  {
    NotHas(FILEA, t);
    NotHas(FILEH, t);
    FileConstants();
    FileBoardHas(0, t);
    FileBoardHas(7, t);
  }

  lemma NoEaOneHas(x: Bitboard, t: Square)
    ensures Has(NoEaOne(x), t) <==> FileOf(t) != 0 && t >= 9 && Has(x, t - 9)
  {
    AndHas(x << 9, !FILEA, t);
    Shl9Has(x, t);
    OffFileHas(t);
  }

  lemma NoWeOneHas(x: Bitboard, t: Square)
    ensures Has(NoWeOne(x), t) <==> FileOf(t) != 7 && t >= 7 && Has(x, t - 7)
  {
    AndHas(x << 7, !FILEH, t);
    Shl7Has(x, t);
    OffFileHas(t);
  }

  lemma SoEaOneHas(x: Bitboard, t: Square)
    ensures Has(SoEaOne(x), t) <==> FileOf(t) != 0 && t < 57 && Has(x, t + 7)
  {
    AndHas(x >> 7, !FILEA, t);
    Shr7Has(x, t);
    OffFileHas(t);
  }

  lemma SoWeOneHas(x: Bitboard, t: Square)
    ensures Has(SoWeOne(x), t) <==> FileOf(t) != 7 && t < 55 && Has(x, t + 9)
  {
    AndHas(x >> 9, !FILEH, t);
    Shr9Has(x, t);
    OffFileHas(t);
  }

  lemma NortOneHas(x: Bitboard, t: Square)
    ensures Has(NortOne(x), t) <==> t >= 8 && Has(x, t - 8)
  {
    Shl8Has(x, t);
  }

  lemma SoutOneHas(x: Bitboard, t: Square)
    ensures Has(SoutOne(x), t) <==> t < 56 && Has(x, t + 8)
  {
    Shr8Has(x, t);
  }

  /* Square-wise set algebra.  The shift form `Bit` is what the solver handles
     best for a symbolic square; `Has` is tied to it once, by BitIsHas. */

  predicate Bit(x: Bitboard, t: Square) { (x >> t) & 1 != 0 }

  lemma BitIsHas(x: Bitboard, t: Square)
    ensures Bit(x, t) == Has(x, t)
  {
  }

  lemma OrBit(x: Bitboard, y: Bitboard, t: Square)
    ensures Bit(x | y, t) <==> Bit(x, t) || Bit(y, t)
  {
  }

  lemma AndBit(x: Bitboard, y: Bitboard, t: Square)
    ensures Bit(x & y, t) <==> Bit(x, t) && Bit(y, t)
  {
  }

  lemma XorBit(x: Bitboard, y: Bitboard, t: Square)
    ensures Bit(x ^ y, t) <==> Bit(x, t) != Bit(y, t)
  {
  }

  lemma NotBit(x: Bitboard, t: Square)
    ensures Bit(!x, t) <==> !Bit(x, t)
  {
  }

  lemma OrHas(x: Bitboard, y: Bitboard, t: Square)
    ensures Has(x | y, t) <==> Has(x, t) || Has(y, t)
  {
    BitIsHas(x | y, t); BitIsHas(x, t); BitIsHas(y, t);
    OrBit(x, y, t);
  }

  lemma AndHas(x: Bitboard, y: Bitboard, t: Square)
    ensures Has(x & y, t) <==> Has(x, t) && Has(y, t)
  {
    BitIsHas(x & y, t); BitIsHas(x, t); BitIsHas(y, t);
    AndBit(x, y, t);
  }

  lemma XorHas(x: Bitboard, y: Bitboard, t: Square)
    ensures Has(x ^ y, t) <==> Has(x, t) != Has(y, t)
  {
    BitIsHas(x ^ y, t); BitIsHas(x, t); BitIsHas(y, t);
    XorBit(x, y, t);
  }

  lemma NotHas(x: Bitboard, t: Square)
    ensures Has(!x, t) <==> !Has(x, t)
  {
    BitIsHas(!x, t); BitIsHas(x, t);
    NotBit(x, t);
  }

  /** The board of all squares from `a` upwards. */
  lemma UpFromHas(a: Square, t: Square)
    ensures Has(FULL << a, t) <==> a <= t
  {
  }

  lemma EmptyHas(t: Square)
    ensures !Has(EMPTY, t)
  {
  }

  lemma WithinUnion(a: Bitboard, b: Bitboard, c: Bitboard)
    requires Within(a, c) && Within(b, c)
    ensures Within(a | b, c)
  {
  }

  lemma WithinTrans(a: Bitboard, b: Bitboard, c: Bitboard)
    requires Within(a, b) && Within(b, c)
    ensures Within(a, c)
  {
  }

  lemma WithinHas(a: Bitboard, b: Bitboard, t: Square)
    requires Within(a, b) && Has(a, t)
    ensures Has(b, t)
  {
  }

  /** Two boards holding the same squares are equal. */
  lemma BoardExt(x: Bitboard, y: Bitboard)
    requires forall t: Square :: Has(x, t) <==> Has(y, t)
    ensures x == y
  {
    if x != y {
      var t := BitScanForward(x ^ y);
      BitScanForwardIsLs1b(x ^ y);
      XorHas(x, y, t);
    }
  }

  /* One square toggled or set on a board: what POS_DEL_PIECE, POS_ADD_PIECE
     and POS_MOVE_PIECE do to a piece board.  The lemmas state their
     conditions as implications, so that a proof using several of them has
     no preconditions to discharge. */

  lemma DisjointHas(a: Bitboard, b: Bitboard, t: Square)
    ensures Disjoint(a, b) && Has(a, t) ==> !Has(b, t)
  {
    AndHas(a, b, t);
    EmptyHas(t);
  }

  lemma HasMask(a: Bitboard, t: Square)
    ensures (Has(a, t) <==> a & Sq64(t) == Sq64(t)) && (!Has(a, t) <==> a & Sq64(t) == 0)
  {
  }

  /** Every square of `m` is set in `a`. */
  predicate Covers(a: Bitboard, m: Bitboard) { a & m == m }

  lemma OnMask(a: Bitboard, t: Square)
    requires Has(a, t)
    ensures Covers(a, Sq64(t))
  {
    HasMask(a, t);
  }

  lemma OffMask(a: Bitboard, t: Square)
    requires !Has(a, t)
    ensures Disjoint(a, Sq64(t))
  {
    HasMask(a, t);
  }

  lemma SquaresApart(s: Square, t: Square)
    requires s != t
    ensures Disjoint(Sq64(s), Sq64(t))
  {
  }

  /** The board with the squares of `m` toggled: the XOR of POS_DEL_PIECE. */
  function Flip(a: Bitboard, m: Bitboard): Bitboard { a ^ m }

  /** The board with the squares of `m` set: the OR of POS_ADD_PIECE. */
  function Put(a: Bitboard, m: Bitboard): Bitboard { a | m }

  /** A union misses `x` exactly when both its parts do. */
  lemma DisjointPut(a: Bitboard, b: Bitboard, x: Bitboard)
    ensures Disjoint(Put(a, b), x) <==> Disjoint(a, x) && Disjoint(b, x)
  {
    AndOverOr(a, b, x);
    BothZero((a | b) & x, a & x, b & x);
  }

  lemma AndOverOr(a: Bitboard, b: Bitboard, x: Bitboard)
    ensures (a | b) & x == (a & x) | (b & x)
  {
  }

  lemma BothZero(j: Bitboard, c: Bitboard, d: Bitboard)
    requires j == c | d
    ensures j == 0 <==> c == 0 && d == 0
  {
  }

  /** A one-square board misses `x` exactly when `x` lacks that square. */
  lemma DisjointSq64(s: Square, x: Bitboard)
    ensures Disjoint(Sq64(s), x) <==> !Has(x, s)
  {
  }

  /** Make-move's move in one instruction: the board XORed with both squares. */
  function Swap(a: Bitboard, m: Bitboard, n: Bitboard): Bitboard { a ^ (m ^ n) }

  /** Undo-move's move back: the board XORed with the union of both squares. */
  function Unswap(a: Bitboard, m: Bitboard, n: Bitboard): Bitboard { a ^ (m | n) }

  lemma ToggleSquareHas(a: Bitboard, s: Square, t: Square)
    ensures Has(Flip(a, Sq64(s)), t) <==> (if t == s then !Has(a, t) else Has(a, t))
  {
    var m := Sq64(s);
    var b := Flip(a, m);
    XorHas(a, m, t);
    Sq64Has(s, t);
  }

  lemma SetSquareHas(a: Bitboard, s: Square, t: Square)
    ensures Has(Put(a, Sq64(s)), t) <==> (t == s || Has(a, t))
  {
    var m := Sq64(s);
    var b := Put(a, m);
    OrHas(a, m, t);
    Sq64Has(s, t);
  }

  /* The same facts for any one-square masks `m` and `n`, first over the raw
     intermediate boards, then over the named operations. */

  lemma OntoSteps(a: Bitboard, m: Bitboard, n: Bitboard, b1: Bitboard)
    requires m & n == 0 && a & n == 0 && b1 == a ^ (m ^ n)
    ensures b1 & n == n
  {
  }

  lemma ClearedSteps(a: Bitboard, m: Bitboard, b1: Bitboard)
    requires a & m == m && b1 == a ^ m
    ensures b1 | m == a
  {
  }

  lemma ShiftedSteps(a: Bitboard, m: Bitboard, n: Bitboard, b1: Bitboard, b2: Bitboard, b3: Bitboard)
    requires a & m == m && a & n == 0 && m & n == 0
    requires b1 == a ^ m && b2 == b1 | n && b3 == b2 ^ n
    ensures b3 | m == a
  {
  }

  lemma MovedSteps(a: Bitboard, m: Bitboard, n: Bitboard, b1: Bitboard)
    requires m & n == 0 && b1 == a ^ (m ^ n)
    ensures b1 ^ (m | n) == a
  {
  }

  lemma PawnSteps(a: Bitboard, m: Bitboard, n: Bitboard, b1: Bitboard, b2: Bitboard)
    requires a & m == m && a & n == 0
    requires b1 == a ^ (m ^ n) && b2 == b1 ^ n
    ensures b2 | m == a
  {
  }

  lemma PieceSteps(a: Bitboard, m: Bitboard, n: Bitboard, b1: Bitboard, b2: Bitboard)
    requires a & m == 0 && a & n == 0 && m & n == 0
    requires b1 == a | n && b2 == b1 ^ (m | n)
    ensures b2 ^ m == a
  {
  }

  lemma OntoMask(a: Bitboard, m: Bitboard, n: Bitboard)
    requires Disjoint(m, n) && Disjoint(a, n)
    ensures Covers(Swap(a, m, n), n)
  {
    OntoSteps(a, m, n, Swap(a, m, n));
  }

  lemma ClearedMask(a: Bitboard, m: Bitboard)
    requires Covers(a, m)
    ensures Put(Flip(a, m), m) == a
  {
    var b1 := Flip(a, m);
    ClearedSteps(a, m, b1);
  }

  lemma ShiftedMask(a: Bitboard, m: Bitboard, n: Bitboard)
    requires Covers(a, m) && Disjoint(a, n) && Disjoint(m, n)
    ensures Put(Flip(Put(Flip(a, m), n), n), m) == a
  {
    var b1 := Flip(a, m);
    var b2 := Put(b1, n);
    var b3 := Flip(b2, n);
    ShiftedSteps(a, m, n, b1, b2, b3);
  }

  lemma MovedMask(a: Bitboard, m: Bitboard, n: Bitboard)
    requires Disjoint(m, n)
    ensures Unswap(Swap(a, m, n), m, n) == a
  {
    var b1 := Swap(a, m, n);
    MovedSteps(a, m, n, b1);
  }

  lemma PawnMask(a: Bitboard, m: Bitboard, n: Bitboard)
    requires Covers(a, m) && Disjoint(a, n)
    ensures Put(Flip(Swap(a, m, n), n), m) == a
  {
    var b1 := Swap(a, m, n);
    var b2 := Flip(b1, n);
    PawnSteps(a, m, n, b1, b2);
  }

  lemma PieceMask(a: Bitboard, m: Bitboard, n: Bitboard)
    requires Disjoint(a, m) && Disjoint(a, n) && Disjoint(m, n)
    ensures Flip(Unswap(Put(a, n), m, n), m) == a
  {
    var b1 := Put(a, n);
    var b2 := Unswap(b1, m, n);
    PieceSteps(a, m, n, b1, b2);
  }

  /** A piece moved from `s` onto an empty `t` in one XOR stands on `t`. */
  lemma MovedOnto(a: Bitboard, s: Square, t: Square)
    ensures s != t && !Has(a, t) ==> Has(Swap(a, Sq64(s), Sq64(t)), t)
  {
    if s != t && !Has(a, t) {
      OffMask(a, t);
      SquaresApart(s, t);
      OntoMask(a, Sq64(s), Sq64(t));
      HasMask(Swap(a, Sq64(s), Sq64(t)), t);
    }
  }

  /** Undo-move's XOR with the union of the two squares cancels make-move's XOR with their difference. */
  lemma MovedBack(a: Bitboard, s: Square, t: Square)
    ensures s != t ==> Unswap(Swap(a, Sq64(s), Sq64(t)), Sq64(s), Sq64(t)) == a
  {
    if s != t {
      SquaresApart(s, t);
      MovedMask(a, Sq64(s), Sq64(t));
    }
  }

  /** A square cleared and set again. */
  lemma ClearedBack(a: Bitboard, t: Square)
    ensures Has(a, t) ==> Put(Flip(a, Sq64(t)), Sq64(t)) == a
  {
    if Has(a, t) {
      OnMask(a, t);
      ClearedMask(a, Sq64(t));
    }
  }

  /** A piece shifted from `s` to an empty `t` and shifted back. */
  lemma ShiftedBack(a: Bitboard, s: Square, t: Square)
    ensures Has(a, s) && !Has(a, t) ==> Put(Flip(Put(Flip(a, Sq64(s)), Sq64(t)), Sq64(t)), Sq64(s)) == a
  {
    if Has(a, s) && !Has(a, t) {
      OnMask(a, s);
      OffMask(a, t);
      SquaresApart(s, t);
      ShiftedMask(a, Sq64(s), Sq64(t));
    }
  }

  /** A pawn that promoted on `t` after leaving `s`, put back on `s`. */
  lemma PromotedPawnBack(a: Bitboard, s: Square, t: Square)
    ensures Has(a, s) && !Has(a, t) ==> Put(Flip(Swap(a, Sq64(s), Sq64(t)), Sq64(t)), Sq64(s)) == a
  {
    if Has(a, s) && !Has(a, t) {
      OnMask(a, s);
      OffMask(a, t);
      PawnMask(a, Sq64(s), Sq64(t));
    }
  }

  /** The promoted piece placed on `t`, moved back to `s` by undo-move and removed there. */
  lemma PromotedPieceBack(a: Bitboard, s: Square, t: Square)
    ensures s != t && !Has(a, s) && !Has(a, t) ==> Flip(Unswap(Put(a, Sq64(t)), Sq64(s), Sq64(t)), Sq64(s)) == a
  {
    if s != t && !Has(a, s) && !Has(a, t) {
      OffMask(a, s);
      OffMask(a, t);
      SquaresApart(s, t);
      PieceMask(a, Sq64(s), Sq64(t));
    }
  }

  /* Bridges between squares and the int square numbers the C loops count with. */

  lemma RankFileInt(s: Square)
    ensures RankOf(s) as int == s as int / 8 && FileOf(s) as int == s as int % 8
  {
  }

  lemma SquareIntEq(x: int, t: Square)
    requires 0 <= x < 64
    ensures (x as Square == t) <==> (x == t as int)
  {
  }
  /** A rank board and a file board meet in exactly the square at that rank and file. */
  lemma RankFileMeet(r: Square, f: Square)
    requires r < 8 && f < 8
    ensures RankBoard(r) & FileBoard(f) == Sq64(SquareAt(r, f))
  {
    var s := SquareAt(r, f);
    forall t: Square ensures Has(RankBoard(r) & FileBoard(f), t) <==> Has(Sq64(s), t) {
      AndHas(RankBoard(r), FileBoard(f), t);
      RankBoardHas(r, t);
      FileBoardHas(f, t);
      Sq64Has(s, t);
      SquareNumbering(t);
    }
    BoardExt(RankBoard(r) & FileBoard(f), Sq64(s));
  }

  /** The bit scan of a one-square board finds that square. */
  lemma BitScanForwardSq64(s: Square)
    ensures Sq64(s) != 0 && BitScanForward(Sq64(s)) == s
  {
    Sq64Single(s);
    BitScanForwardIsLs1b(Sq64(s));
    var t := BitScanForward(Sq64(s));
    Sq64Has(s, t);
  }
}
