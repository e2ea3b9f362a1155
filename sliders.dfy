/**
 * Sliding-piece attacks.  Rmagic and Bmagic, the magic-bitboard lookups
 * behind src/bitboard.c's slider functions, are specified here by what they
 * return: the squares on the piece's lines that nothing stands in front of,
 * i.e. every square up to and including the first occupied one in each
 * direction.  The file, rank, diagonal and x-ray attack functions of
 * src/bitboard.c are built on them exactly as the source builds them.
 */
module Sliders {
  import opened Bits
  import opened Masks

  /* ---------------------------------------------------------------- */
  /* Boards from square predicates                                    */
  /* ---------------------------------------------------------------- */

  /** The single-square board of `s` when `f` holds there. */
  function Pick(f: Square -> bool, s: Square): Bitboard {
    if f(s) then Sq64(s) else EMPTY
  }

  /** The squares 0..s where `f` holds. */
  function Collect(f: Square -> bool, s: Square): Bitboard
    decreases s as int
  {
    if s == 0 then Pick(f, 0) else Pick(f, s) | Collect(f, s - 1)
  }

  /** The board of the squares where `f` holds. */
  function Board(f: Square -> bool): Bitboard {
    Collect(f, 63)
  }

  lemma PickHas(f: Square -> bool, s: Square, t: Square)
    ensures Has(Pick(f, s), t) <==> t == s && f(s)
  {
    Sq64Has(s, t);
    EmptyHas(t);
  }

  lemma {:induction false} CollectHas(f: Square -> bool, s: Square, t: Square)
    ensures Has(Collect(f, s), t) <==> t <= s && f(t)
    decreases s as int
  {
    PickHas(f, s, t);
    if s != 0 {
      OrHas(Pick(f, s), Collect(f, s - 1), t);
      CollectHas(f, s - 1, t);
      UpTo(s, t);
    }
  }

  lemma UpTo(s: Square, t: Square)
    requires s != 0
    ensures t <= s <==> t == s || t <= s - 1
  {
  }

  /** A board built from a predicate holds exactly the squares satisfying it. */
  lemma BoardHas(f: Square -> bool, t: Square)
    ensures Has(Board(f), t) <==> f(t)
  {
    CollectHas(f, 63, t);
  }

  /* ---------------------------------------------------------------- */
  /* What a slider sees                                               */
  /* ---------------------------------------------------------------- */

  /** `u` lies strictly inside the segment from `s` to `t` along a file, rank or diagonal. */
  predicate Inside(s: Square, t: Square, u: Square) {
    Between(s, t, u) &&
    ((SameFile(s, t) && SameFile(s, u)) || (SameRank(s, t) && SameRank(s, u)) ||
     (SameDiagNE(s, t) && SameDiagNE(s, u)) || (SameDiagNW(s, t) && SameDiagNW(s, u)))
  }

  /** The squares strictly between `s` and `t` on the line joining them (empty when there is no such line). */
  function Segment(s: Square, t: Square): Bitboard {
    Board((u: Square) => Inside(s, t, u))
  }

  /** The segment holds exactly the squares strictly inside it. */
  lemma SegmentHas(s: Square, t: Square, u: Square)
    ensures Has(Segment(s, t), u) <==> Inside(s, t, u)
  {
    BoardHas((v: Square) => Inside(s, t, v), u);
  }

  /** Two different squares share at most one line. */
  lemma OneLine(s: Square, t: Square)
    requires s != t
    ensures !(SameFile(s, t) && SameRank(s, t)) && !(SameFile(s, t) && SameDiagNE(s, t))
    ensures !(SameFile(s, t) && SameDiagNW(s, t)) && !(SameRank(s, t) && SameDiagNE(s, t))
    ensures !(SameRank(s, t) && SameDiagNW(s, t)) && !(SameDiagNE(s, t) && SameDiagNW(s, t))
  {
  }

  /** The obstructed table of the engine holds exactly the squares inside the segment. */
  lemma InsideIsObstructed(s: Square, t: Square, u: Square)
    ensures Has(Obstructed(s, t), u) <==> Inside(s, t, u)
  {
    ObstructedEmpty(s, t);
    EmptyHas(u);
    if s != t {
      OneLine(s, t);
      if SameFile(s, t) {
        ObstructedOnFile(s, t, u);
      } else if SameRank(s, t) {
        ObstructedOnRank(s, t, u);
      } else if SameDiagNE(s, t) {
        ObstructedOnDiagNE(s, t, u);
      } else if SameDiagNW(s, t) {
        ObstructedOnDiagNW(s, t, u);
      }
    }
  }

  /** The segment is the engine's obstructed[s][t]. */
  lemma SegmentIsObstructed(s: Square, t: Square)
    ensures Segment(s, t) == Obstructed(s, t)
  {
    forall u: Square ensures Has(Segment(s, t), u) <==> Has(Obstructed(s, t), u) {
      SegmentHas(s, t, u);
      InsideIsObstructed(s, t, u);
    }
    BoardExt(Segment(s, t), Obstructed(s, t));
  }

  /** `t` is another square than `s` and no occupied square lies strictly between them. */
  predicate Clear(s: Square, occ: Bitboard, t: Square) {
    t != s && Disjoint(Segment(s, t), occ)
  }

  /** The two kinds of slider: a queen is both. */
  datatype Slider = Rook | Bishop

  /** `t` shares a file or a rank (rook) or a diagonal (bishop) with `s`. */
  predicate OnLine(p: Slider, s: Square, t: Square) {
    match p
    case Rook => SameFile(s, t) || SameRank(s, t)
    case Bishop => SameDiagNE(s, t) || SameDiagNW(s, t)
  }

  /** A slider of kind `p` on `s` attacks `t` on the board `occ`. */
  predicate Sees(p: Slider, s: Square, occ: Bitboard, t: Square) {
    OnLine(p, s, t) && Clear(s, occ, t)
  }

  /** A rook's attacks along its file. */
  predicate FileSees(s: Square, occ: Bitboard, t: Square) {
    SameFile(s, t) && Clear(s, occ, t)
  }

  /** A rook's attacks along its rank. */
  predicate RankSees(s: Square, occ: Bitboard, t: Square) {
    SameRank(s, t) && Clear(s, occ, t)
  }

  /* ---------------------------------------------------------------- */
  /* Rmagic and Bmagic                                                */
  /* ---------------------------------------------------------------- */

  /** A slider on `s` sees `t` exactly when one on `t` sees `s`. */
  lemma SeesSymmetric(pk: Slider, s: Square, occ: Bitboard, t: Square)
    ensures Sees(pk, s, occ, t) <==> Sees(pk, t, occ, s)
  {
    ClearSymmetric(s, occ, t);
    OnLineSymmetric(pk, s, t);
  }

  /** Rook attacks are symmetric: a rook on `s` attacks `t` exactly when one on `t` attacks `s`. */
  lemma RookAttacksSymmetric(s: Square, occ: Bitboard, t: Square)
    ensures Has(RookAttacks(s, occ), t) <==> Has(RookAttacks(t, occ), s)
  {
    RookAttacksHas(s, occ, t);
    RookAttacksHas(t, occ, s);
    SeesSymmetric(Rook, s, occ, t);
  }

  /** Bishop attacks are symmetric in the same way. */
  lemma BishopAttacksSymmetric(s: Square, occ: Bitboard, t: Square)
    ensures Has(BishopAttacks(s, occ), t) <==> Has(BishopAttacks(t, occ), s)
  {
    BishopAttacksHas(s, occ, t);
    BishopAttacksHas(t, occ, s);
    SeesSymmetric(Bishop, s, occ, t);
  }

  lemma ClearSymmetric(s: Square, occ: Bitboard, t: Square)
    ensures Clear(s, occ, t) <==> Clear(t, occ, s)
  {
    SegmentSymmetric(s, t);
  }

  lemma OnLineSymmetric(pk: Slider, s: Square, t: Square)
    ensures OnLine(pk, s, t) <==> OnLine(pk, t, s)
  {
  }

  lemma SegmentSymmetric(s: Square, t: Square)
    ensures Segment(s, t) == Segment(t, s)
  {
    SegmentIsObstructed(s, t);
    SegmentIsObstructed(t, s);
    ObstructedSymmetric(s, t);
  }

  /** Rmagic(s, occ): the squares a rook on `s` attacks. */
  function RookAttacks(s: Square, occ: Bitboard): Bitboard {
    Board((t: Square) => Sees(Rook, s, occ, t))
  }

  /** Bmagic(s, occ): the squares a bishop on `s` attacks. */
  function BishopAttacks(s: Square, occ: Bitboard): Bitboard {
    Board((t: Square) => Sees(Bishop, s, occ, t))
  }

  lemma RookAttacksHas(s: Square, occ: Bitboard, t: Square)
    ensures Has(RookAttacks(s, occ), t) <==> Sees(Rook, s, occ, t)
  {
    BoardHas((u: Square) => Sees(Rook, s, occ, u), t);
  }

  lemma BishopAttacksHas(s: Square, occ: Bitboard, t: Square)
    ensures Has(BishopAttacks(s, occ), t) <==> Sees(Bishop, s, occ, t)
  {
    BoardHas((u: Square) => Sees(Bishop, s, occ, u), t);
  }

  /* ---------------------------------------------------------------- */
  /* File, rank and diagonal attacks (bitboard_*Attacks)              */
  /* ---------------------------------------------------------------- */

  /** bitboard_fileAttacks: the rook attacks of the lowest square of `from`, off its rank. */
  function FileAttacks(occ: Bitboard, from: Bitboard): Bitboard
    requires from != 0
  {
    FileAttacksOf(occ, BitScanForward(from))
  }

  function FileAttacksOf(occ: Bitboard, idx: Square): Bitboard {
    Masked(!RankMask(idx), RookAttacks(idx, occ))
  }

  /** bitboard_rankAttacks: the rook attacks of the lowest square of `from`, off its file. */
  function RankAttacks(occ: Bitboard, from: Bitboard): Bitboard
    requires from != 0
  {
    RankAttacksOf(occ, BitScanForward(from))
  }

  function RankAttacksOf(occ: Bitboard, idx: Square): Bitboard {
    Masked(!FileMask(idx), RookAttacks(idx, occ))
  }

  /** bitboard_diagonalAttacks: the bishop attacks of the lowest square of `from`. */
  function DiagonalAttacks(occ: Bitboard, from: Bitboard): Bitboard
    requires from != 0
  {
    BishopAttacks(BitScanForward(from), occ)
  }

  /** A square sharing both the file and the rank of `s` is `s`. */
  lemma FileRankMeet(s: Square, t: Square)
    requires SameFile(s, t) && SameRank(s, t)
    ensures s == t
  {
  }

  /** Masking out `m` removes exactly its squares. */
  lemma WithoutHas(r: Bitboard, m: Bitboard, t: Square, inR: bool, inM: bool)
    requires Has(r, t) <==> inR
    requires Has(m, t) <==> inM
    ensures Has(Masked(!m, r), t) <==> inR && !inM
  {
    MaskedHas(!m, r, t);
    NotHas(m, t);
  }

  /** Off its rank, a rook sees along its file only. */
  lemma FileSeesOffRank(s: Square, occ: Bitboard, t: Square)
    ensures FileSees(s, occ, t) <==> Sees(Rook, s, occ, t) && !SameRank(s, t)
  {
    if SameFile(s, t) && SameRank(s, t) {
      FileRankMeet(s, t);
    }
  }

  /** Off its file, a rook sees along its rank only. */
  lemma RankSeesOffFile(s: Square, occ: Bitboard, t: Square)
    ensures RankSees(s, occ, t) <==> Sees(Rook, s, occ, t) && !SameFile(s, t)
  {
    if SameFile(s, t) && SameRank(s, t) {
      FileRankMeet(s, t);
    }
  }

  /** The file attacks from `s` are the squares of its file that nothing screens off. */
  lemma FileAttacksOfHas(occ: Bitboard, s: Square, t: Square)
    ensures Has(FileAttacksOf(occ, s), t) <==> FileSees(s, occ, t)
  {
    FileSeesOffRank(s, occ, t);
    FileAttacksOfSplit(occ, s, t, Sees(Rook, s, occ, t), SameRank(s, t));
  }

  lemma FileAttacksOfSplit(occ: Bitboard, s: Square, t: Square, sees: bool, onRank: bool)
    requires sees <==> Sees(Rook, s, occ, t)
    requires onRank <==> SameRank(s, t)
    ensures Has(FileAttacksOf(occ, s), t) <==> sees && !onRank
  {
    RankMaskHas(s, t);
    RookAttacksHas(s, occ, t);
    WithoutHas(RookAttacks(s, occ), RankMask(s), t, sees, onRank);
  }

  /** The rank attacks from `s` are the squares of its rank that nothing screens off. */
  lemma RankAttacksOfHas(occ: Bitboard, s: Square, t: Square)
    ensures Has(RankAttacksOf(occ, s), t) <==> RankSees(s, occ, t)
  {
    RankSeesOffFile(s, occ, t);
    RankAttacksOfSplit(occ, s, t, Sees(Rook, s, occ, t), SameFile(s, t));
  }

  lemma RankAttacksOfSplit(occ: Bitboard, s: Square, t: Square, sees: bool, onFile: bool)
    requires sees <==> Sees(Rook, s, occ, t)
    requires onFile <==> SameFile(s, t)
    ensures Has(RankAttacksOf(occ, s), t) <==> sees && !onFile
  {
    FileMaskHas(s, t);
    RookAttacksHas(s, occ, t);
    WithoutHas(RookAttacks(s, occ), FileMask(s), t, sees, onFile);
  }

  /** Only the lowest square of `from` counts. */
  lemma FileAttacksHas(occ: Bitboard, from: Bitboard, t: Square)
    requires from != 0
    ensures Has(FileAttacks(occ, from), t) <==> FileSees(BitScanForward(from), occ, t)
  {
    FileAttacksOfHas(occ, BitScanForward(from), t);
  }

  lemma RankAttacksHas(occ: Bitboard, from: Bitboard, t: Square)
    requires from != 0
    ensures Has(RankAttacks(occ, from), t) <==> RankSees(BitScanForward(from), occ, t)
  {
    RankAttacksOfHas(occ, BitScanForward(from), t);
  }

  lemma DiagonalAttacksHas(occ: Bitboard, from: Bitboard, t: Square)
    requires from != 0
    ensures Has(DiagonalAttacks(occ, from), t) <==> Sees(Bishop, BitScanForward(from), occ, t)
  {
    BishopAttacksHas(BitScanForward(from), occ, t);
  }

  /* ---------------------------------------------------------------- */
  /* X-ray attacks (bitboard_xray*Attacks)                            */
  /* ---------------------------------------------------------------- */

  /** Ranks 2 to 7: along a file, a blocker on the first or last rank has nothing behind it. */
  const INNER_RANKS: Bitboard := 0x00FF_FFFF_FFFF_FF00
  /** Files b to g. */
  const INNER_FILES: Bitboard := 0x7E7E_7E7E_7E7E_7E7E
  /** The squares off the board's edge. */
  const INNER_SQUARES: Bitboard := 0x007E_7E7E_7E7E_7E00

  /** `blockers &= attacks & inner`: the blockers the slider attacks, away from the edge. */
  function Screen(blockers: Bitboard, attacks: Bitboard, inner: Bitboard): Bitboard {
    blockers & (attacks & inner)
  }

  /** `occupancy ^ blockers`: the board with the screen lifted off. */
  function Lift(occ: Bitboard, screen: Bitboard): Bitboard {
    occ ^ screen
  }

  /** The x-ray result: nothing without a screen, else the attacks that change once the screen is lifted. */
  function Revealed(screen: Bitboard, before: Bitboard, after: Bitboard): Bitboard {
    if screen == 0 then screen else before ^ after
  }

  /** bitboard_xrayFileAttacks: the file squares a rook on the lowest square of `from` sees through its first blockers. */
  function XrayFileAttacks(occ: Bitboard, blockers: Bitboard, from: Bitboard): Bitboard
    requires from != 0
  {
    XrayFileOf(occ, blockers, BitScanForward(from))
  }

  /** The blockers among the rook's file attacks, off the first and last ranks. */
  function FileScreen(occ: Bitboard, blockers: Bitboard, idx: Square): Bitboard {
    Screen(blockers, FileAttacksOf(occ, idx), INNER_RANKS)
  }

  function XrayFileOf(occ: Bitboard, blockers: Bitboard, idx: Square): Bitboard {
    var screen := FileScreen(occ, blockers, idx);
    Revealed(screen, FileAttacksOf(occ, idx), FileAttacksOf(Lift(occ, screen), idx))
  }

  /** bitboard_xrayRankAttacks: the rank squares a rook on the lowest square of `from` sees through its first blockers. */
  function XrayRankAttacks(occ: Bitboard, blockers: Bitboard, from: Bitboard): Bitboard
    requires from != 0
  {
    XrayRankOf(occ, blockers, BitScanForward(from))
  }

  /** The blockers among the rook's rank attacks, off the a- and h-files. */
  function RankScreen(occ: Bitboard, blockers: Bitboard, idx: Square): Bitboard {
    Screen(blockers, RankAttacksOf(occ, idx), INNER_FILES)
  }

  function XrayRankOf(occ: Bitboard, blockers: Bitboard, idx: Square): Bitboard {
    var screen := RankScreen(occ, blockers, idx);
    Revealed(screen, RankAttacksOf(occ, idx), RankAttacksOf(Lift(occ, screen), idx))
  }

  /** bitboard_xrayDiagonalAttacks: the diagonal squares a bishop on the lowest square of `from` sees through its first blockers. */
  function XrayDiagonalAttacks(occ: Bitboard, blockers: Bitboard, from: Bitboard): Bitboard
    requires from != 0
  {
    XrayDiagonalOf(occ, blockers, BitScanForward(from))
  }

  /** The blockers among the bishop's attacks, off the board's edge. */
  function DiagonalScreen(occ: Bitboard, blockers: Bitboard, idx: Square): Bitboard {
    Screen(blockers, BishopAttacks(idx, occ), INNER_SQUARES)
  }

  function XrayDiagonalOf(occ: Bitboard, blockers: Bitboard, idx: Square): Bitboard {
    var screen := DiagonalScreen(occ, blockers, idx);
    Revealed(screen, BishopAttacks(idx, occ), BishopAttacks(idx, Lift(occ, screen)))
  }

  /** Lifting blockers from the board leaves a board within it. */
  lemma LiftWithin(occ: Bitboard, blockers: Bitboard, attacks: Bitboard, inner: Bitboard)
    requires Within(blockers, occ)
    ensures Within(Lift(occ, Screen(blockers, attacks, inner)), occ)
  {
  }

  lemma DisjointWithin(g: Bitboard, occ: Bitboard, fewer: Bitboard)
    requires Within(fewer, occ) && Disjoint(g, occ)
    ensures Disjoint(g, fewer)
  {
  }

  /** With fewer pieces on the board, a clear line stays clear. */
  lemma ClearMonotone(s: Square, occ: Bitboard, fewer: Bitboard, t: Square)
    requires Within(fewer, occ) && Clear(s, occ, t)
    ensures Clear(s, fewer, t)
  {
    DisjointWithin(Segment(s, t), occ, fewer);
  }

  /** Lifting a screen of blockers keeps every clear line clear. */
  lemma LiftKeepsClear(s: Square, occ: Bitboard, blockers: Bitboard, attacks: Bitboard, inner: Bitboard, t: Square)
    requires Within(blockers, occ)
    ensures Clear(s, occ, t) ==> Clear(s, Lift(occ, Screen(blockers, attacks, inner)), t)
  {
    LiftWithin(occ, blockers, attacks, inner);
    if Clear(s, occ, t) {
      ClearMonotone(s, occ, Lift(occ, Screen(blockers, attacks, inner)), t);
    }
  }

  /** When the attack set can only grow once the screen is lifted, the x-ray result is the growth. */
  lemma RevealedGrowth(screen: Bitboard, before: Bitboard, after: Bitboard, t: Square, b: bool, a: bool)
    requires Has(before, t) <==> b
    requires Has(after, t) <==> a
    requires b ==> a
    ensures screen == 0 ==> Revealed(screen, before, after) == 0
    ensures screen != 0 ==> (Has(Revealed(screen, before, after), t) <==> a && !b)
  {
    XorHas(before, after, t);
  }

  /**
   * Without a screen the x-ray file attacks are empty; otherwise they are
   * the file squares the rook sees once the screen is lifted and did not
   * see before.
   */
  lemma XrayFileOfReveals(occ: Bitboard, blockers: Bitboard, s: Square, t: Square)
    requires Within(blockers, occ)
    ensures FileScreen(occ, blockers, s) == 0 ==> XrayFileOf(occ, blockers, s) == 0
    ensures FileScreen(occ, blockers, s) != 0 ==>
      (Has(XrayFileOf(occ, blockers, s), t) <==> FileSees(s, Lift(occ, FileScreen(occ, blockers, s)), t) && !FileSees(s, occ, t))
  {
    LiftKeepsClear(s, occ, blockers, FileAttacksOf(occ, s), INNER_RANKS, t);
    XrayFileOfGrowth(occ, blockers, s, t, FileSees(s, occ, t), FileSees(s, Lift(occ, FileScreen(occ, blockers, s)), t));
  }

  lemma XrayFileOfGrowth(occ: Bitboard, blockers: Bitboard, s: Square, t: Square, b: bool, a: bool)
    requires b <==> FileSees(s, occ, t)
    requires a <==> FileSees(s, Lift(occ, FileScreen(occ, blockers, s)), t)
    requires b ==> a
    ensures FileScreen(occ, blockers, s) == 0 ==> XrayFileOf(occ, blockers, s) == 0
    ensures FileScreen(occ, blockers, s) != 0 ==> (Has(XrayFileOf(occ, blockers, s), t) <==> a && !b)
  {
    var lifted := Lift(occ, FileScreen(occ, blockers, s));
    FileAttacksOfHas(occ, s, t);
    FileAttacksOfHas(lifted, s, t);
    RevealedGrowth(FileScreen(occ, blockers, s), FileAttacksOf(occ, s), FileAttacksOf(lifted, s), t, b, a);
  }

  /** The same for the rank: the rank squares the rook sees once the screen is lifted and did not see before. */
  lemma XrayRankOfReveals(occ: Bitboard, blockers: Bitboard, s: Square, t: Square)
    requires Within(blockers, occ)
    ensures RankScreen(occ, blockers, s) == 0 ==> XrayRankOf(occ, blockers, s) == 0
    ensures RankScreen(occ, blockers, s) != 0 ==>
      (Has(XrayRankOf(occ, blockers, s), t) <==> RankSees(s, Lift(occ, RankScreen(occ, blockers, s)), t) && !RankSees(s, occ, t))
  {
    LiftKeepsClear(s, occ, blockers, RankAttacksOf(occ, s), INNER_FILES, t);
    XrayRankOfGrowth(occ, blockers, s, t, RankSees(s, occ, t), RankSees(s, Lift(occ, RankScreen(occ, blockers, s)), t));
  }

  lemma XrayRankOfGrowth(occ: Bitboard, blockers: Bitboard, s: Square, t: Square, b: bool, a: bool)
    requires b <==> RankSees(s, occ, t)
    requires a <==> RankSees(s, Lift(occ, RankScreen(occ, blockers, s)), t)
    requires b ==> a
    ensures RankScreen(occ, blockers, s) == 0 ==> XrayRankOf(occ, blockers, s) == 0
    ensures RankScreen(occ, blockers, s) != 0 ==> (Has(XrayRankOf(occ, blockers, s), t) <==> a && !b)
  {
    var lifted := Lift(occ, RankScreen(occ, blockers, s));
    RankAttacksOfHas(occ, s, t);
    RankAttacksOfHas(lifted, s, t);
    RevealedGrowth(RankScreen(occ, blockers, s), RankAttacksOf(occ, s), RankAttacksOf(lifted, s), t, b, a);
  }

  /** The same for the diagonals: the squares the bishop sees once the screen is lifted and did not see before. */
  lemma XrayDiagonalOfReveals(occ: Bitboard, blockers: Bitboard, s: Square, t: Square)
    requires Within(blockers, occ)
    ensures DiagonalScreen(occ, blockers, s) == 0 ==> XrayDiagonalOf(occ, blockers, s) == 0
    ensures DiagonalScreen(occ, blockers, s) != 0 ==>
      (Has(XrayDiagonalOf(occ, blockers, s), t) <==>
       Sees(Bishop, s, Lift(occ, DiagonalScreen(occ, blockers, s)), t) && !Sees(Bishop, s, occ, t))
  {
    LiftKeepsClear(s, occ, blockers, BishopAttacks(s, occ), INNER_SQUARES, t);
    XrayDiagonalOfGrowth(occ, blockers, s, t, Sees(Bishop, s, occ, t), Sees(Bishop, s, Lift(occ, DiagonalScreen(occ, blockers, s)), t));
  }

  lemma XrayDiagonalOfGrowth(occ: Bitboard, blockers: Bitboard, s: Square, t: Square, b: bool, a: bool)
    requires b <==> Sees(Bishop, s, occ, t)
    requires a <==> Sees(Bishop, s, Lift(occ, DiagonalScreen(occ, blockers, s)), t)
    requires b ==> a
    ensures DiagonalScreen(occ, blockers, s) == 0 ==> XrayDiagonalOf(occ, blockers, s) == 0
    ensures DiagonalScreen(occ, blockers, s) != 0 ==> (Has(XrayDiagonalOf(occ, blockers, s), t) <==> a && !b)
  {
    var lifted := Lift(occ, DiagonalScreen(occ, blockers, s));
    BishopAttacksHas(s, occ, t);
    BishopAttacksHas(s, lifted, t);
    RevealedGrowth(DiagonalScreen(occ, blockers, s), BishopAttacks(s, occ), BishopAttacks(s, lifted), t, b, a);
  }

  /** A square that only lifting the screen brings into view lies behind a screen piece. */
  lemma RevealedBehindScreen(s: Square, occ: Bitboard, screen: Bitboard, t: Square)
    requires Within(screen, occ) && Clear(s, Lift(occ, screen), t) && !Clear(s, occ, t)
    ensures exists u: Square :: Inside(s, t, u) && Has(screen, u)
  {
    ScreenMeets(Segment(s, t), occ, screen);
    if forall u: Square :: !(Inside(s, t, u) && Has(screen, u)) {
      forall u: Square ensures !(Has(Segment(s, t), u) && Has(screen, u)) {
        SegmentHas(s, t, u);
      }
      DisjointFromHas(Segment(s, t), screen);
    }
  }

  /** Boards with no square in common are disjoint. */
  lemma DisjointFromHas(a: Bitboard, b: Bitboard)
    requires forall t: Square :: !(Has(a, t) && Has(b, t))
    ensures Disjoint(a, b)
  {
    forall t: Square ensures Has(a & b, t) <==> Has(EMPTY, t) {
      AndHas(a, b, t);
      EmptyHas(t);
    }
    BoardExt(a & b, EMPTY);
  }

  lemma ScreenMeets(g: Bitboard, occ: Bitboard, screen: Bitboard)
    requires Within(screen, occ) && Disjoint(g, occ ^ screen) && !Disjoint(g, occ)
    ensures !Disjoint(g, screen)
  {
  }

  /* ---------------------------------------------------------------- */
  /* Reference value of the engine's self-test                        */
  /* ---------------------------------------------------------------- */

  /** The squares on d4's diagonals, d4 included, and those the self-test's value holds. */
  lemma D4Diagonals(t: Square)
    ensures OnLine(Bishop, D4, t) || Has(0x8040_2214_0014_2201, t) ==> t in {0, 9, 18, 27, 36, 45, 54, 63, 6, 13, 20, 34, 41, 48}
  {
  }

  /** On d4's north-east diagonal, the bishop sees a square exactly when the self-test's value holds it. */
  lemma BishopD4OnDiagNE(t: Square)
    requires t in {0, 9, 18, 27, 36, 45, 54, 63}
    ensures Sees(Bishop, D4, 0x8000_0200_0000_2001, t) <==> Has(0x8040_2214_0014_2201, t)
  {
    if t == 0 {
      SegmentIsObstructed(D4, 0);
    } else if t == 9 {
      SegmentIsObstructed(D4, 9);
    } else if t == 18 {
      SegmentIsObstructed(D4, 18);
    } else if t == 27 {
      SegmentIsObstructed(D4, 27);
    } else if t == 36 {
      SegmentIsObstructed(D4, 36);
    } else if t == 45 {
      SegmentIsObstructed(D4, 45);
    } else if t == 54 {
      SegmentIsObstructed(D4, 54);
    } else {
      SegmentIsObstructed(D4, 63);
    }
  }

  /** The same on d4's north-west diagonal. */
  lemma BishopD4OnDiagNW(t: Square)
    requires t in {6, 13, 20, 34, 41, 48}
    ensures Sees(Bishop, D4, 0x8000_0200_0000_2001, t) <==> Has(0x8040_2214_0014_2201, t)
  {
    if t == 6 {
      SegmentIsObstructed(D4, 6);
    } else if t == 13 {
      SegmentIsObstructed(D4, 13);
    } else if t == 20 {
      SegmentIsObstructed(D4, 20);
    } else if t == 34 {
      SegmentIsObstructed(D4, 34);
    } else if t == 41 {
      SegmentIsObstructed(D4, 41);
    } else {
      SegmentIsObstructed(D4, 48);
    }
  }

  /** Each square agrees with the self-test's Bmagic value for a bishop on d4. */
  lemma BishopD4Square(t: Square)
    ensures Has(BishopAttacks(D4, 0x8000_0200_0000_2001), t) <==> Has(0x8040_2214_0014_2201, t)
  {
    BishopAttacksHas(D4, 0x8000_0200_0000_2001, t);
    D4Diagonals(t);
    if OnLine(Bishop, D4, t) || Has(0x8040_2214_0014_2201, t) {
      if t in {0, 9, 18, 27, 36, 45, 54, 63} {
        BishopD4OnDiagNE(t);
      } else {
        BishopD4OnDiagNW(t);
      }
    }
  }

  /** Bmagic for a bishop on d4 with pieces on a1, f2, b6 and h8: it reaches the blockers and stops there. */
  lemma BishopAttacksReference()
    ensures BishopAttacks(D4, 0x8000_0200_0000_2001) == 0x8040_2214_0014_2201
  {
    forall t: Square ensures Has(BishopAttacks(D4, 0x8000_0200_0000_2001), t) <==> Has(0x8040_2214_0014_2201, t) {
      BishopD4Square(t);
    }
    BoardExt(BishopAttacks(D4, 0x8000_0200_0000_2001), 0x8040_2214_0014_2201);
  }
}
