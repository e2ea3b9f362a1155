/**
 * The per-square mask tables of src/bitboard.c: king and knight move masks,
 * file, rank and diagonal masks, and the "strictly between" (obstructed)
 * table, first as functions of the square, then as the arrays the engine
 * fills at start-up (class Tables).
 */
module Masks {
  import opened Bits

  /* ---------------------------------------------------------------- */
  /* Geometry of squares                                              */
  /* ---------------------------------------------------------------- */

  /** Distance between two coordinates. */
  function Dist(x: Square, y: Square): Square { if x <= y then y - x else x - y }

  predicate SameFile(a: Square, b: Square) { FileOf(a) == FileOf(b) }
  predicate SameRank(a: Square, b: Square) { RankOf(a) == RankOf(b) }

  /** Same north-east (a1-h8 direction) diagonal: rank - file agrees. */
  predicate SameDiagNE(a: Square, b: Square) { RankOf(a) - FileOf(a) == RankOf(b) - FileOf(b) }

  /** Same north-west (h1-a8 direction) diagonal: rank + file agrees. */
  predicate SameDiagNW(a: Square, b: Square) { RankOf(a) + FileOf(a) == RankOf(b) + FileOf(b) }

  /** `t` lies strictly between `a` and `b` in square order. */
  predicate Between(a: Square, b: Square, t: Square) { (a < t < b) || (b < t < a) }

  /* ---------------------------------------------------------------- */
  /* Mask functions                                                   */
  /* ---------------------------------------------------------------- */

  /** gen_king_moves: the union of the eight one-step shifts of SQ64(s). */
  function KingMoves(s: Square): Bitboard {
    var b := Sq64(s);
    NortOne(b) | WestOne(b) | EastOne(b) | SoutOne(b) | NoEaOne(b) | NoWeOne(b) | SoEaOne(b) | SoWeOne(b)
  }

  /** gen_knight_moves: the eight knight jumps, each masked against wrapping across the board edge. */
  function KnightMoves(s: Square): Bitboard {
    var o := Sq64(s);
    ((o << 17) & !FILEA) | ((o << 10) & !FILEA & !FILEB) | ((o >> 6) & !FILEA & !FILEB) | ((o >> 15) & !FILEA)
    | ((o << 15) & !FILEH) | ((o << 6) & !FILEG & !FILEH) | ((o >> 10) & !FILEG & !FILEH) | ((o >> 17) & !FILEH)
  }

  /** gen_files: the file of `s`. */
  function FileMask(s: Square): Bitboard { FileBoard(FileOf(s)) }

  /** gen_ranks: the rank of `s`. */
  function RankMask(s: Square): Bitboard { RankBoard(RankOf(s)) }

  /** The a1-h8 and h1-a8 long diagonals. */
  const MAIN_DIAG: Bitboard := 0x8040_2010_0804_0201
  const ANTI_DIAG: Bitboard := 0x0102_0408_1020_4080

  /** The north-east diagonal through `s`: the long diagonal shifted by whole ranks. */
  function DiagNE(s: Square): Bitboard {
    if RankOf(s) >= FileOf(s) then MAIN_DIAG << ((RankOf(s) - FileOf(s)) * 8)
    else MAIN_DIAG >> ((FileOf(s) - RankOf(s)) * 8)
  }

  /** The north-west diagonal through `s`. */
  function DiagNW(s: Square): Bitboard {
    if RankOf(s) + FileOf(s) >= 7 then ANTI_DIAG << ((RankOf(s) + FileOf(s) - 7) * 8)
    else ANTI_DIAG >> ((7 - RankOf(s) - FileOf(s)) * 8)
  }

  /** The squares strictly between `a` and `b` in square order, as gen_obstructed computes them. */
  function Btwn(a: Square, b: Square): Bitboard {
    var ends := Sq64(a) | Sq64(b);
    (((FULL << a) ^ (FULL << b)) | ends) ^ ends
  }

  /**
   * gen_obstructed: the between-set restricted to the first of the file,
   * rank, north-east and north-west masks of `a` that contains `b`; empty
   * when none does.
   */
  function Obstructed(a: Square, b: Square): Bitboard {
    Masked(LineMask(a, b), Btwn(a, b))
  }

  /** The squares of `x` that lie on `mask`. */
  function Masked(mask: Bitboard, x: Bitboard): Bitboard { mask & x }

  /** The first of the file, rank, north-east and north-west masks of `a` that contains `b`, or EMPTY. */
  function LineMask(a: Square, b: Square): Bitboard {
    if Has(FileMask(a), b) then FileMask(a)
    else if Has(RankMask(a), b) then RankMask(a)
    else if Has(DiagNE(a), b) then DiagNE(a)
    else if Has(DiagNW(a), b) then DiagNW(a)
    else EMPTY
  }

  /* ---------------------------------------------------------------- */
  /* Geometry of the masks                                            */
  /* ---------------------------------------------------------------- */

  /** A king reaches exactly the other squares at most one rank and one file away. */
  lemma KingMovesGeometry(s: Square, t: Square)
    ensures Has(KingMoves(s), t) <==> t != s && Dist(RankOf(s), RankOf(t)) <= 1 && Dist(FileOf(s), FileOf(t)) <= 1
  {
  }

  lemma DistSymmetric(x: Square, y: Square)
    ensures Dist(x, y) == Dist(y, x)
  {
  }

  /** King moves are symmetric: `t` is a move from `s` exactly when `s` is one from `t`. */
  lemma KingMovesSymmetric(s: Square, t: Square)
    ensures Has(KingMoves(s), t) <==> Has(KingMoves(t), s)
  {
    KingMovesGeometry(s, t);
    KingMovesGeometry(t, s);
    DistSymmetric(RankOf(s), RankOf(t));
    DistSymmetric(FileOf(s), FileOf(t));
  }

  /** Knight moves are symmetric in the same way. */
  lemma KnightMovesSymmetric(s: Square, t: Square)
    ensures Has(KnightMoves(s), t) <==> Has(KnightMoves(t), s)
  {
    KnightMovesGeometry(s, t);
    KnightMovesGeometry(t, s);
    DistSymmetric(RankOf(s), RankOf(t));
    DistSymmetric(FileOf(s), FileOf(t));
    SameAnswer(Has(KnightMoves(s), t), Has(KnightMoves(t), s),
      (Dist(RankOf(s), RankOf(t)) == 1 && Dist(FileOf(s), FileOf(t)) == 2) ||
      (Dist(RankOf(s), RankOf(t)) == 2 && Dist(FileOf(s), FileOf(t)) == 1));
  }

  lemma SameAnswer(a: bool, b: bool, g: bool)
    requires a <==> g
    requires b <==> g
    ensures a <==> b
  {
  }

  /** A knight reaches exactly the squares two ranks and one file, or one rank and two files, away: no jump wraps around the board. */
  lemma KnightMovesGeometry(s: Square, t: Square)
    ensures Has(KnightMoves(s), t) <==>
      (Dist(RankOf(s), RankOf(t)) == 1 && Dist(FileOf(s), FileOf(t)) == 2) ||
      (Dist(RankOf(s), RankOf(t)) == 2 && Dist(FileOf(s), FileOf(t)) == 1)
  {
  }

  lemma FileMaskHas(s: Square, t: Square)
    ensures Has(FileMask(s), t) <==> SameFile(s, t)
  {
    FileBoardHas(FileOf(s), t);
  }

  lemma RankMaskHas(s: Square, t: Square)
    ensures Has(RankMask(s), t) <==> SameRank(s, t)
  {
    RankBoardHas(RankOf(s), t);
  }

  lemma DiagNEHas(s: Square, t: Square)
    ensures Has(DiagNE(s), t) <==> SameDiagNE(s, t)
  {
  }

  lemma DiagNWHas(s: Square, t: Square)
    ensures Has(DiagNW(s), t) <==> SameDiagNW(s, t)
  {
  }

  /** Every square of a diagonal has that same diagonal as its mask. */
  lemma DiagNEShared(s: Square, t: Square)
    requires SameDiagNE(s, t)
    ensures DiagNE(s) == DiagNE(t)
  {
  }

  lemma DiagNWShared(s: Square, t: Square)
    requires SameDiagNW(s, t)
    ensures DiagNW(s) == DiagNW(t)
  {
  }

  /* ---------------------------------------------------------------- */
  /* The between-set                                                  */
  /* ---------------------------------------------------------------- */

  /** Every square of the between-set lies strictly between its ends. */
  lemma BtwnWithinSpan(a: Square, b: Square, t: Square)
    requires Has(Btwn(a, b), t)
    ensures Between(a, b, t)
  {
  }

  /** Every square strictly between the ends, the lower end first, is in the between-set. */
  lemma BtwnCovers(a: Square, b: Square, t: Square)
    requires a < t < b
    ensures Has(Btwn(a, b), t)
  {
  }

  /** The between-set holds exactly the squares strictly between its ends. */
  lemma BtwnHas(a: Square, b: Square, t: Square)
    ensures Has(Btwn(a, b), t) <==> Between(a, b, t)
  {
    if Has(Btwn(a, b), t) {
      BtwnWithinSpan(a, b, t);
    }
    if a < t < b {
      BtwnCovers(a, b, t);
    } else if b < t < a {
      BtwnCovers(b, a, t);
      BtwnSymmetric(a, b);
    }
  }

  /** The between-set excludes both ends. */
  lemma BtwnExcludesEnds(a: Square, b: Square)
    ensures !Has(Btwn(a, b), a) && !Has(Btwn(a, b), b)
  {
  }

  lemma BtwnSymmetric(a: Square, b: Square)
    ensures Btwn(a, b) == Btwn(b, a)
  {
  }

  lemma BtwnSelf(a: Square)
    ensures Btwn(a, a) == EMPTY
  {
  }

  /* ---------------------------------------------------------------- */
  /* The obstructed table                                             */
  /* ---------------------------------------------------------------- */

  /** The four line relations, in the order gen_obstructed tries them. */
  lemma LineTests(a: Square, b: Square)
    ensures Has(FileMask(a), b) <==> SameFile(a, b)
    ensures Has(RankMask(a), b) <==> SameRank(a, b)
    ensures Has(DiagNE(a), b) <==> SameDiagNE(a, b)
    ensures Has(DiagNW(a), b) <==> SameDiagNW(a, b)
  {
    FileMaskHas(a, b);
    RankMaskHas(a, b);
    DiagNEHas(a, b);
    DiagNWHas(a, b);
  }

  /** obstructed[a][b] == obstructed[b][a]. */
  lemma ObstructedSymmetric(a: Square, b: Square)
    ensures Obstructed(a, b) == Obstructed(b, a)
  {
    LineMaskSymmetric(a, b);
    BtwnSymmetric(a, b);
  }

  /** Both squares lie on the line that joins them, whichever test picked it. */
  lemma LineMaskSymmetric(a: Square, b: Square)
    ensures LineMask(a, b) == LineMask(b, a)
  {
    LineTests(a, b);
    LineTests(b, a);
    if SameFile(a, b) {
      assert FileMask(a) == FileMask(b);
    } else if SameRank(a, b) {
      assert RankMask(a) == RankMask(b);
    } else if SameDiagNE(a, b) {
      DiagNEShared(a, b);
    } else if SameDiagNW(a, b) {
      DiagNWShared(a, b);
    }
  }

  lemma ObstructedHas(a: Square, b: Square, t: Square)
    ensures Has(Obstructed(a, b), t) <==> Has(LineMask(a, b), t) && Has(Btwn(a, b), t)
  {
    MaskedHas(LineMask(a, b), Btwn(a, b), t);
  }

  lemma MaskedHas(mask: Bitboard, x: Bitboard, t: Square)
    ensures Has(Masked(mask, x), t) <==> Has(mask, t) && Has(x, t)
  {
    AndHas(mask, x, t);
  }

  /*
   * obstructed[a][b] is the set of squares strictly between `a` and `b` on
   * the file, rank or diagonal they share (tried in that order), and empty
   * when they share none.
   */

  lemma ObstructedOnFile(a: Square, b: Square, t: Square)
    requires SameFile(a, b)
    ensures Has(Obstructed(a, b), t) <==> SameFile(a, t) && Between(a, b, t)
  {
    LineTests(a, b);
    ObstructedHas(a, b, t);
    BtwnHas(a, b, t);
    FileMaskHas(a, t);
  }

  lemma ObstructedOnRank(a: Square, b: Square, t: Square)
    requires !SameFile(a, b) && SameRank(a, b)
    ensures Has(Obstructed(a, b), t) <==> SameRank(a, t) && Between(a, b, t)
  {
    LineTests(a, b);
    ObstructedHas(a, b, t);
    BtwnHas(a, b, t);
    RankMaskHas(a, t);
  }

  lemma ObstructedOnDiagNE(a: Square, b: Square, t: Square)
    requires !SameFile(a, b) && !SameRank(a, b) && SameDiagNE(a, b)
    ensures Has(Obstructed(a, b), t) <==> SameDiagNE(a, t) && Between(a, b, t)
  {
    LineTests(a, b);
    ObstructedHas(a, b, t);
    BtwnHas(a, b, t);
    DiagNEHas(a, t);
  }

  lemma ObstructedOnDiagNW(a: Square, b: Square, t: Square)
    requires !SameFile(a, b) && !SameRank(a, b) && !SameDiagNE(a, b) && SameDiagNW(a, b)
    ensures Has(Obstructed(a, b), t) <==> SameDiagNW(a, t) && Between(a, b, t)
  {
    LineTests(a, b);
    ObstructedHas(a, b, t);
    BtwnHas(a, b, t);
    DiagNWHas(a, t);
  }

  /** Neither end is ever an obstructing square. */
  lemma ObstructedExcludesEnds(a: Square, b: Square)
    ensures !Has(Obstructed(a, b), a) && !Has(Obstructed(a, b), b)
  {
    ObstructedHas(a, b, a);
    ObstructedHas(a, b, b);
    BtwnExcludesEnds(a, b);
  }

  /** Squares that share no line have nothing between them, and neither does a square and itself. */
  lemma ObstructedEmpty(a: Square, b: Square)
    ensures a == b ==> Obstructed(a, b) == EMPTY
    ensures !SameFile(a, b) && !SameRank(a, b) && !SameDiagNE(a, b) && !SameDiagNW(a, b) ==>
      Obstructed(a, b) == EMPTY
  {
    BtwnSelf(a);
    LineTests(a, b);
  }

  /* ---------------------------------------------------------------- */
  /* Reference values of the engine's self-test                       */
  /* ---------------------------------------------------------------- */

  lemma KingMovesReference()
    ensures KingMoves(A8) == 0x0203_0000_0000_0000 && KingMoves(D8) == 0x141C_0000_0000_0000
    ensures KingMoves(H8) == 0x40C0_0000_0000_0000 && KingMoves(A1) == 0x0000_0000_0000_0302
    ensures KingMoves(D1) == 0x0000_0000_0000_1C14 && KingMoves(H1) == 0x0000_0000_0000_C040
  {
  }

  lemma KnightMovesReference()
    ensures KnightMoves(A8) == 0x0004_0200_0000_0000 && KnightMoves(D8) == 0x0022_1400_0000_0000
    ensures KnightMoves(H8) == 0x0020_4000_0000_0000 && KnightMoves(A1) == 0x0000_0000_0002_0400
    ensures KnightMoves(D1) == 0x0000_0000_0014_2200 && KnightMoves(H1) == 0x0000_0000_0040_2000
  {
  }

  lemma FileRankReference()
    ensures RankMask(A8) == RANK8 && RankMask(H8) == RANK8 && RankMask(E4) == RANK4
    ensures RankMask(D5) == RANK5 && RankMask(H1) == RANK1 && RankMask(A1) == RANK1
    ensures FileMask(A8) == FILEA && FileMask(H8) == FILEH && FileMask(E4) == FILEE
    ensures FileMask(D5) == FILED && FileMask(H1) == FILEH && FileMask(A1) == FILEA
  {
  }

  lemma DiagNWReference()
    ensures DiagNW(A8) == 0x0102_0408_1020_4080 && DiagNW(H1) == 0x0102_0408_1020_4080
    ensures DiagNW(A2) == 0x0000_0000_0000_0102 && DiagNW(B1) == 0x0000_0000_0000_0102
    ensures DiagNW(A1) == 0x0000_0000_0000_0001 && DiagNW(H8) == 0x8000_0000_0000_0000
    ensures DiagNW(G8) == 0x4080_0000_0000_0000 && DiagNW(H7) == 0x4080_0000_0000_0000
  {
  }

  lemma DiagNEReference()
    ensures DiagNE(A8) == 0x0100_0000_0000_0000 && DiagNE(H1) == 0x0000_0000_0000_0080
    ensures DiagNE(A7) == 0x0201_0000_0000_0000 && DiagNE(B8) == 0x0201_0000_0000_0000
    ensures DiagNE(A1) == 0x8040_2010_0804_0201 && DiagNE(H8) == 0x8040_2010_0804_0201
    ensures DiagNE(G1) == 0x0000_0000_0000_8040 && DiagNE(H2) == 0x0000_0000_0000_8040
  {
  }

  lemma ObstructedReference()
    ensures Obstructed(D1, D4) == 0x0000_0000_0008_0800
    ensures Obstructed(A1, H8) == 0x0040_2010_0804_0200
    ensures Obstructed(A8, H8) == 0x7E00_0000_0000_0000
    ensures Obstructed(A1, H1) == 0x0000_0000_0000_007E
  {
  }
}
