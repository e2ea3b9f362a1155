/**
 * The legality tests of src/position.c that the move generator calls on a
 * record whose pins and attack sets are built: canMove, canTakeEp, and the
 * pin scan genPinned that fills `pinned` and `pinner[]`.
 */
module Legality {
  import opened Bits
  import opened Pieces
  import opened Masks
  import opened Sliders
  import opened Scan
  import opened PositionSpec

  /* ---------------------------------------------------------------- */
  /* canMove                                                          */
  /* ---------------------------------------------------------------- */

  /** Both squares lie on the line `mask`. */
  predicate BothOn(mask: Bitboard, from: Square, to: Square) {
    Has(mask, from) && Has(mask, to)
  }

  /**
   * The test canMove applies to a pinned piece: a queen or bishop pinner
   * lets it move along a diagonal through the pinner, a queen or rook
   * pinner along the pinner's rank or file.
   */
  predicate AlongPin(w: View, pinner: Bitboard, from: Square, to: Square)
    requires w.Shaped()
  {
    (!Disjoint(pinner, OtherQueenBishops(w)) &&
      (BothOn(DiagNE(BitScanForward(pinner)), from, to) || BothOn(DiagNW(BitScanForward(pinner)), from, to))) ||
    (!Disjoint(pinner, OtherQueenRooks(w)) &&
      (BothOn(RankMask(BitScanForward(pinner)), from, to) || BothOn(FileMask(BitScanForward(pinner)), from, to)))
  }

  /** The occupancy with the king of the side to move lifted off. */
  function KingLifted(w: View): Bitboard
    requires w.Shaped()
  {
    Flip(w.occupied, OurKing(w))
  }

  /** An enemy slider still reaches `to` once the king has stepped off its line. */
  predicate SliderBehind(w: View, to: Square)
    requires w.Shaped()
  {
    !Disjoint(RookAttacks(to, KingLifted(w)), OtherQueenRooks(w)) ||
    !Disjoint(BishopAttacks(to, KingLifted(w)), OtherQueenBishops(w))
  }

  /**
   * canMove(SQ64(from), SQ64(to)): never onto the enemy king; a pinned
   * piece only along its pin; the king never onto an attacked square, nor,
   * in check, onto a square a checking slider reaches through the king's
   * old square.
   */
  predicate CanMove(w: View, from: Square, to: Square)
    requires w.Shaped()
  {
    if Has(OtherKing(w), to) then false
    else if Has(w.pinned, from) then AlongPin(w, w.pinner[from], from, to)
    else if Has(OurKing(w), from) && SquareAttacked(w, to) then false
    else if w.inCheck && Has(OurKing(w), from) && SliderBehind(w, to) then false
    else true
  }

  /** A move of a piece that is neither pinned nor the king is refused only when it lands on the enemy king. */
  lemma FreePieceMoves(w: View, from: Square, to: Square)
    requires w.Shaped() && !Has(w.pinned, from) && !Has(OurKing(w), from)
    ensures CanMove(w, from, to) <==> !Has(OtherKing(w), to)
  {
  }

  /** A piece pinned from `pin` may move exactly along a line that runs through the pinner and both of its squares. */
  lemma PinnedMovesAlongLine(w: View, from: Square, to: Square, pin: Square)
    requires w.Shaped() && Has(w.pinned, from) && w.pinner[from] == Sq64(pin)
    ensures CanMove(w, from, to) <==> (!Has(OtherKing(w), to) &&
      ((Has(OtherQueenBishops(w), pin) &&
        ((SameDiagNE(pin, from) && SameDiagNE(pin, to)) || (SameDiagNW(pin, from) && SameDiagNW(pin, to)))) ||
       (Has(OtherQueenRooks(w), pin) &&
        ((SameRank(pin, from) && SameRank(pin, to)) || (SameFile(pin, from) && SameFile(pin, to))))))
  {
    BitScanForwardSq64(pin);
    MeetsSquare(OtherQueenBishops(w), pin);
    MeetsSquare(OtherQueenRooks(w), pin);
    PinLines(pin, from, to);
    DisjointSym(Sq64(pin), OtherQueenBishops(w));
    DisjointSym(Sq64(pin), OtherQueenRooks(w));
  }

  lemma DisjointSym(a: Bitboard, b: Bitboard)
    ensures Disjoint(a, b) <==> Disjoint(b, a)
  {
  }

  /** The four line masks of the pinner's square hold both squares exactly when they share that line with it. */
  lemma PinLines(pin: Square, from: Square, to: Square)
    ensures BothOn(DiagNE(pin), from, to) <==> SameDiagNE(pin, from) && SameDiagNE(pin, to)
    ensures BothOn(DiagNW(pin), from, to) <==> SameDiagNW(pin, from) && SameDiagNW(pin, to)
    ensures BothOn(RankMask(pin), from, to) <==> SameRank(pin, from) && SameRank(pin, to)
    ensures BothOn(FileMask(pin), from, to) <==> SameFile(pin, from) && SameFile(pin, to)
  {
    DiagNEHas(pin, from);
    DiagNEHas(pin, to);
    DiagNWHas(pin, from);
    DiagNWHas(pin, to);
    RankMaskHas(pin, from);
    RankMaskHas(pin, to);
    FileMaskHas(pin, from);
    FileMaskHas(pin, to);
  }

  /** A pinned knight cannot move: a knight's jump never stays on a line through its square. */
  lemma PinnedKnightStuck(w: View, from: Square, to: Square, pin: Square)
    requires w.Shaped() && Has(w.pinned, from) && w.pinner[from] == Sq64(pin)
    requires Has(KnightMoves(from), to)
    ensures !CanMove(w, from, to)
  {
    PinnedMovesAlongLine(w, from, to, pin);
    KnightMovesGeometry(from, to);
    KnightLeavesLines(pin, from, to);
  }

  /** Two squares a knight's jump apart never share a line with a third square. */
  lemma KnightLeavesLines(pin: Square, from: Square, to: Square)
    requires (Dist(RankOf(from), RankOf(to)) == 1 && Dist(FileOf(from), FileOf(to)) == 2) ||
             (Dist(RankOf(from), RankOf(to)) == 2 && Dist(FileOf(from), FileOf(to)) == 1)
    ensures !(SameDiagNE(pin, from) && SameDiagNE(pin, to)) && !(SameDiagNW(pin, from) && SameDiagNW(pin, to))
    ensures !(SameRank(pin, from) && SameRank(pin, to)) && !(SameFile(pin, from) && SameFile(pin, to))
  {
  }

  /**
   * With the attack sets of the other side built, an unpinned king may step
   * to `to` exactly when no enemy piece attacks it, the enemy king is not
   * on it, and, in check, no enemy slider reaches it through the king's
   * old square.
   */
  lemma KingMovesSafely(w: View, king: Square, from: Square, to: Square)
    requires w.Shaped() && Built(w, Other(w.side)) && w.pieces[K + Other(w.side)] == Sq64(king)
    requires Has(OurKing(w), from) && !Has(w.pinned, from)
    ensures CanMove(w, from, to) <==>
      !Has(OtherKing(w), to) && !AttackedBy(w.pieces, w.occupied, Other(w.side), to) &&
      (w.inCheck ==> !SliderBehind(w, to))
  {
    SquareAttackedMeaning(w, king, to);
  }

  /** A queen or rook of the other side on `s` that sees `to` through the lifted king makes the king's step illegal. */
  lemma RookBehindRefuses(w: View, s: Square, to: Square)
    requires w.Shaped() && Has(OtherQueenRooks(w), s) && Has(RookAttacks(s, KingLifted(w)), to)
    ensures SliderBehind(w, to)
  {
    RookAttacksSymmetric(s, KingLifted(w), to);
    DisjointHas(RookAttacks(to, KingLifted(w)), OtherQueenRooks(w), s);
  }

  /** The same for a queen or bishop of the other side. */
  lemma BishopBehindRefuses(w: View, s: Square, to: Square)
    requires w.Shaped() && Has(OtherQueenBishops(w), s) && Has(BishopAttacks(s, KingLifted(w)), to)
    ensures SliderBehind(w, to)
  {
    BishopAttacksSymmetric(s, KingLifted(w), to);
    DisjointHas(BishopAttacks(to, KingLifted(w)), OtherQueenBishops(w), s);
  }

  /** Conversely, a slider test that fires names an enemy slider that sees `to` through the lifted king. */
  lemma SliderBehindNames(w: View, to: Square)
    requires w.Shaped() && SliderBehind(w, to)
    ensures exists s: Square ::
      (Has(OtherQueenRooks(w), s) && Has(RookAttacks(s, KingLifted(w)), to)) ||
      (Has(OtherQueenBishops(w), s) && Has(BishopAttacks(s, KingLifted(w)), to))
  {
    var lifted := KingLifted(w);
    if !Disjoint(RookAttacks(to, lifted), OtherQueenRooks(w)) {
      var s := SharedSquare(RookAttacks(to, lifted), OtherQueenRooks(w));
      RookAttacksSymmetric(s, lifted, to);
    } else {
      var s := SharedSquare(BishopAttacks(to, lifted), OtherQueenBishops(w));
      BishopAttacksSymmetric(s, lifted, to);
    }
  }

  /** Two boards that meet share a square. */
  lemma SharedSquare(a: Bitboard, b: Bitboard) returns (s: Square)
    requires !Disjoint(a, b)
    ensures Has(a, s) && Has(b, s)
  {
    if forall t: Square :: !(Has(a, t) && Has(b, t)) {
      DisjointFromHas(a, b);
    }
    s :| Has(a, s) && Has(b, s);
  }

  /* ---------------------------------------------------------------- */
  /* canTakeEp                                                        */
  /* ---------------------------------------------------------------- */

  /** The rank a capturing pawn stands on for an en-passant capture: the fifth for White, the fourth for Black. */
  function EpRank(side: int): Bitboard {
    if side == WHITE then RANK5 else RANK4
  }

  /** The square of the pawn that made the double move, one step behind the en-passant square. */
  function LastDouble(side: int, to: Square): Bitboard {
    if side == WHITE then SoutOne(Sq64(to)) else NortOne(Sq64(to))
  }

  /** The occupancy with the double-moved pawn lifted off. */
  function WithoutLastDouble(w: View, to: Square): Bitboard
    requires w.Shaped()
  {
    Flip(w.occupied, LastDouble(w.side, to))
  }

  /** The enemy rooks and queens that see the king along its rank through our first blocker, once the double-moved pawn is gone. */
  function RankPinners(w: View, to: Square): Bitboard
    requires w.Shaped() && OurKing(w) != 0
  {
    Masked(XrayRankAttacks(WithoutLastDouble(w, to), OurPieces(w), OurKing(w)), OtherQueenRooks(w))
  }

  /**
   * canTakeEp(SQ64(from), SQ64(to)): with our king and an enemy rook or
   * queen on the capturing rank, the capture is refused when `from` is one
   * of our pieces between the king and the lowest such pinner.
   */
  predicate CanTakeEp(w: View, from: Square, to: Square)
    requires w.Shaped()
  {
    if !Disjoint(OurKing(w), EpRank(w.side)) && !Disjoint(OtherQueenRooks(w), EpRank(w.side)) then
      var pinner := RankPinners(w, to);
      pinner == 0 ||
      !Has(Masked(Obstructed(BitScanForward(pinner), BitScanForward(OurKing(w))), OurPieces(w)), from)
    else true
  }

  /**
   * canTakeEp refuses a capture only when the capturing piece stands
   * strictly between our king and an enemy rook or queen on the king's
   * rank that sees the king once the double-moved pawn and our blockers
   * are lifted, and does not see it before.
   */
  lemma EpRefusalIsRankPin(w: View, from: Square, to: Square, king: Square)
    requires w.Shaped() && OurKing(w) == Sq64(king) && Within(OurPieces(w), w.occupied)
    requires Disjoint(OurPieces(w), LastDouble(w.side, to))
    requires !CanTakeEp(w, from, to)
    ensures exists s: Square ::
      Has(OtherQueenRooks(w), s) && Has(OurPieces(w), from) && Inside(s, king, from) &&
      RankSees(king, Lift(WithoutLastDouble(w, to), RankScreen(WithoutLastDouble(w, to), OurPieces(w), king)), s) &&
      !RankSees(king, WithoutLastDouble(w, to), s)
  {
    BitScanForwardSq64(king);
    var occ := WithoutLastDouble(w, to);
    var pinner := RankPinners(w, to);
    var s := BitScanForward(pinner);
    BitScanForwardIsLs1b(pinner);
    MaskedHas(XrayRankAttacks(occ, OurPieces(w), OurKing(w)), OtherQueenRooks(w), s);
    MaskedHas(Obstructed(s, king), OurPieces(w), from);
    InsideIsObstructed(s, king, from);
    FlipWithin(OurPieces(w), w.occupied, LastDouble(w.side, to));
    XrayRankOfReveals(occ, OurPieces(w), king, s);
    EmptyHas(s);
  }

  /**
   * Lifting the double-moved pawn keeps our pieces on the board: it is
   * an enemy pawn, so it is not one of ours.  Stated over any board `x`
   * lifted from `occ`; what is needed is that `x` does not hit `ours`.
   */
  lemma FlipWithin(ours: Bitboard, occ: Bitboard, x: Bitboard)
    requires Within(ours, occ)
    ensures Disjoint(ours, x) ==> Within(ours, Flip(occ, x))
  {
  }

  /* ---------------------------------------------------------------- */
  /* genPinned                                                        */
  /* ---------------------------------------------------------------- */

  /**
   * The pinners genPinned collects: enemy queens and rooks that the x-ray
   * file and rank attacks from our king reach through our first blockers,
   * and enemy queens and bishops that the x-ray diagonal attacks reach.
   */
  function Pinners(w: View): Bitboard
    requires w.Shaped() && OurKing(w) != 0
  {
    PinnersOf(w.occupied, OurPieces(w), BitScanForward(OurKing(w)), OtherQueenRooks(w), OtherQueenBishops(w))
  }

  /** The same over plain boards: `king` is the king's square, `oqr` and `oqb` the enemy sliders of each kind. */
  function PinnersOf(occ: Bitboard, ours: Bitboard, king: Square, oqr: Bitboard, oqb: Bitboard): Bitboard {
    Join(Join(Masked(XrayFileOf(occ, ours, king), oqr), Masked(XrayRankOf(occ, ours, king), oqr)),
         Masked(XrayDiagonalOf(occ, ours, king), oqb))
  }

  /** The part of the record genPinned writes. */
  datatype Pins = Pins(pinned: Bitboard, pinner: seq<Bitboard>)

  /**
   * One turn of genPinned's loop for the pinner on `sq`: our pieces between
   * it and the king join `pinned`, and the entry of the lowest of them in
   * `pinner[]` records the pinner.  (bsf of an empty board is undefined in
   * the engine; with nothing between, the model leaves `pinner[]` alone.)
   */
  function PinStep(ours: Bitboard, king: Square): (Pins, Square) -> Pins {
    (st: Pins, sq: Square) =>
      var between := Masked(Obstructed(sq, king), ours);
      Pins(Join(st.pinned, between),
           if |st.pinner| == 64 && between != 0 then st.pinner[BitScanForward(between) := Sq64(sq)] else st.pinner)
  }

  /** The record's pins after genPinned. */
  function Pinned(w: View): Pins
    requires w.Shaped() && OurKing(w) != 0
  {
    Fold(Pins(w.pinned, w.pinner), Pinners(w), PinStep(OurPieces(w), BitScanForward(OurKing(w))))
  }

  /** Only our own pieces are ever marked pinned, and `pinner[]` keeps its 64 entries. */
  lemma PinnedAreOurs(w: View)
    requires w.Shaped() && OurKing(w) != 0 && Within(w.pinned, OurPieces(w))
    ensures Within(Pinned(w).pinned, OurPieces(w)) && |Pinned(w).pinner| == 64
  {
    PinFoldOurs(Pins(w.pinned, w.pinner), Pinners(w), OurPieces(w), BitScanForward(OurKing(w)));
  }

  /** The loop of genPinned keeps `pinned` within our pieces, whatever squares it visits. */
  lemma PinFoldOurs(start: Pins, xs: Bitboard, ours: Bitboard, king: Square)
    requires Within(start.pinned, ours) && |start.pinner| == 64
    ensures Within(Fold(start, xs, PinStep(ours, king)).pinned, ours) && |Fold(start, xs, PinStep(ours, king)).pinner| == 64
  {
    var step := PinStep(ours, king);
    var inv := (st: Pins) => Within(st.pinned, ours) && |st.pinner| == 64;
    forall a: Pins, sq: Square | inv(a) && Has(xs, sq)
      ensures inv(step(a, sq))
    {
      JoinMaskedWithin(a.pinned, Obstructed(sq, king), ours);
    }
    FoldKeeps(start, xs, step, inv);
  }

  /** The loop of genPinned keeps the 64 entries of `pinner[]`. */
  lemma PinFoldLength(start: Pins, xs: Bitboard, ours: Bitboard, king: Square)
    requires |start.pinner| == 64
    ensures |Fold(start, xs, PinStep(ours, king)).pinner| == 64
  {
    FoldKeeps(start, xs, PinStep(ours, king), (st: Pins) => |st.pinner| == 64);
  }

  /** The record with genPinned's results stored in it. */
  function WithPins(w: View): (r: View)
    requires w.Shaped() && OurKing(w) != 0
    ensures r.Shaped() && r.pieces == w.pieces && r.side == w.side && r.occupied == w.occupied && r.enpassant == w.enpassant
    ensures r.pinned == Pinned(w).pinned && r.pinner == Pinned(w).pinner
  {
    PinFoldLength(Pins(w.pinned, w.pinner), Pinners(w), OurPieces(w), BitScanForward(OurKing(w)));
    w.(pinned := Pinned(w).pinned, pinner := Pinned(w).pinner)
  }

  lemma JoinMaskedWithin(a: Bitboard, m: Bitboard, ours: Bitboard)
    requires Within(a, ours)
    ensures Within(Join(a, Masked(m, ours)), ours)
  {
  }

  /**
   * Every pinner genPinned finds is an enemy queen or rook on the king's
   * file or rank, or an enemy queen or bishop on one of its diagonals,
   * with one of our pieces strictly between it and the king.
   */
  lemma PinnerMeaning(w: View, king: Square, s: Square)
    requires w.Shaped() && OurKing(w) == Sq64(king) && Within(OurPieces(w), w.occupied)
    requires Has(Pinners(w), s)
    ensures (Has(OtherQueenRooks(w), s) && (SameFile(king, s) || SameRank(king, s))) ||
            (Has(OtherQueenBishops(w), s) && (SameDiagNE(king, s) || SameDiagNW(king, s)))
    ensures exists u: Square :: Inside(king, s, u) && Has(OurPieces(w), u)
  {
    BitScanForwardSq64(king);
    PinnerLines(w.occupied, OurPieces(w), king, OtherQueenRooks(w), OtherQueenBishops(w), s);
  }

  lemma PinnerLines(occ: Bitboard, ours: Bitboard, king: Square, oqr: Bitboard, oqb: Bitboard, s: Square)
    requires Within(ours, occ) && Has(PinnersOf(occ, ours, king, oqr, oqb), s)
    ensures (Has(oqr, s) && (SameFile(king, s) || SameRank(king, s))) ||
            (Has(oqb, s) && (SameDiagNE(king, s) || SameDiagNW(king, s)))
    ensures exists u: Square :: Inside(king, s, u) && Has(ours, u)
  {
    var fileX, rankX, diagX := XrayFileOf(occ, ours, king), XrayRankOf(occ, ours, king), XrayDiagonalOf(occ, ours, king);
    JoinHas(Join(Masked(fileX, oqr), Masked(rankX, oqr)), Masked(diagX, oqb), s);
    JoinHas(Masked(fileX, oqr), Masked(rankX, oqr), s);
    MaskedHas(fileX, oqr, s);
    MaskedHas(rankX, oqr, s);
    MaskedHas(diagX, oqb, s);
    if Has(Masked(fileX, oqr), s) {
      FilePinner(occ, ours, king, s);
    } else if Has(Masked(rankX, oqr), s) {
      RankPinner(occ, ours, king, s);
    } else {
      DiagonalPinner(occ, ours, king, s);
    }
  }

  /** A square the x-ray file attacks reach lies on the king's file, behind one of our pieces. */
  lemma FilePinner(occ: Bitboard, ours: Bitboard, king: Square, s: Square)
    requires Within(ours, occ) && Has(XrayFileOf(occ, ours, king), s)
    ensures SameFile(king, s) && exists u: Square :: Inside(king, s, u) && Has(ours, u)
  {
    var screen := FileScreen(occ, ours, king);
    XrayFileOfReveals(occ, ours, king, s);
    if screen == 0 {
      EmptyHas(s);
    } else {
      ScreenBehind(occ, ours, FileAttacksOf(occ, king), INNER_RANKS, king, s);
    }
  }

  /** A square the x-ray rank attacks reach lies on the king's rank, behind one of our pieces. */
  lemma RankPinner(occ: Bitboard, ours: Bitboard, king: Square, s: Square)
    requires Within(ours, occ) && Has(XrayRankOf(occ, ours, king), s)
    ensures SameRank(king, s) && exists u: Square :: Inside(king, s, u) && Has(ours, u)
  {
    var screen := RankScreen(occ, ours, king);
    XrayRankOfReveals(occ, ours, king, s);
    if screen == 0 {
      EmptyHas(s);
    } else {
      ScreenBehind(occ, ours, RankAttacksOf(occ, king), INNER_FILES, king, s);
    }
  }

  /** A square the x-ray diagonal attacks reach lies on a diagonal of the king, behind one of our pieces. */
  lemma DiagonalPinner(occ: Bitboard, ours: Bitboard, king: Square, s: Square)
    requires Within(ours, occ) && Has(XrayDiagonalOf(occ, ours, king), s)
    ensures (SameDiagNE(king, s) || SameDiagNW(king, s)) && exists u: Square :: Inside(king, s, u) && Has(ours, u)
  {
    var screen := DiagonalScreen(occ, ours, king);
    XrayDiagonalOfReveals(occ, ours, king, s);
    if screen == 0 {
      EmptyHas(s);
    } else {
      ScreenBehind(occ, ours, BishopAttacks(king, occ), INNER_SQUARES, king, s);
    }
  }

  /** A square that lifting a screen of our pieces brings into view has one of them strictly between. */
  lemma ScreenBehind(occ: Bitboard, ours: Bitboard, attacks: Bitboard, inner: Bitboard, king: Square, s: Square)
    requires Within(ours, occ)
    requires Clear(king, Lift(occ, Screen(ours, attacks, inner)), s) && !Clear(king, occ, s)
    ensures exists u: Square :: Inside(king, s, u) && Has(ours, u)
  {
    var screen := Screen(ours, attacks, inner);
    ScreenWithin(ours, attacks, inner, occ);
    RevealedBehindScreen(king, occ, screen, s);
    var u :| Inside(king, s, u) && Has(screen, u);
    ScreenHas(ours, attacks, inner, u);
  }

  lemma ScreenWithin(ours: Bitboard, attacks: Bitboard, inner: Bitboard, occ: Bitboard)
    requires Within(ours, occ)
    ensures Within(Screen(ours, attacks, inner), occ)
  {
  }

  lemma ScreenHas(ours: Bitboard, attacks: Bitboard, inner: Bitboard, u: Square)
    requires Has(Screen(ours, attacks, inner), u)
    ensures Has(ours, u)
  {
  }

  /* ---------------------------------------------------------------- */
  /* genPinned finds every pin                                        */
  /* ---------------------------------------------------------------- */

  /** `u` is the one occupied square strictly between `king` and `s` on the line joining them. */
  ghost predicate AloneBetween(occ: Bitboard, king: Square, s: Square, u: Square) {
    Inside(king, s, u) && Has(occ, u) && forall v: Square :: Inside(king, s, v) && Has(occ, v) ==> v == u
  }

  /** A square inside the segment lies on the segment's own line. */
  lemma InsideSameLine(king: Square, s: Square, u: Square)
    requires Inside(king, s, u)
    ensures SameFile(king, s) ==> SameFile(king, u)
    ensures SameRank(king, s) ==> SameRank(king, u)
    ensures SameDiagNE(king, s) ==> SameDiagNE(king, u)
    ensures SameDiagNW(king, s) ==> SameDiagNW(king, u)
  {
    OneLine(king, s);
  }

  /** Inside a shorter segment from the king is inside the longer one, and short of its end. */
  lemma InsideNested(king: Square, s: Square, u: Square, v: Square)
    requires Inside(king, s, u) && Inside(king, u, v)
    ensures Inside(king, s, v) && v != u
  {
    InsideSameLine(king, s, u);
    OneLine(king, u);
  }

  /** The king's slider view reaches the lone piece between, and stops there short of `s`. */
  lemma AloneSeen(occ: Bitboard, king: Square, s: Square, u: Square)
    requires AloneBetween(occ, king, s, u)
    ensures Clear(king, occ, u) && !Clear(king, occ, s)
  {
    forall v: Square ensures !(Has(Segment(king, u), v) && Has(occ, v)) {
      SegmentHas(king, u, v);
      if Inside(king, u, v) {
        InsideNested(king, s, u, v);
      }
    }
    DisjointFromHas(Segment(king, u), occ);
    SegmentHas(king, s, u);
    DisjointHas(Segment(king, s), occ, u);
  }

  /** Lifting a screen that holds the lone piece between clears the line from the king to `s`. */
  lemma AloneLifted(occ: Bitboard, screen: Bitboard, king: Square, s: Square, u: Square)
    requires Within(screen, occ) && Has(screen, u) && AloneBetween(occ, king, s, u)
    ensures Clear(king, Lift(occ, screen), s)
  {
    forall v: Square ensures !(Has(Segment(king, s), v) && Has(Lift(occ, screen), v)) {
      SegmentHas(king, s, v);
      XorHas(occ, screen, v);
      if Has(screen, v) {
        WithinHas(screen, occ, v);
      }
    }
    DisjointFromHas(Segment(king, s), Lift(occ, screen));
  }

  /** A square strictly between two squares of one file is off the first and last ranks. */
  lemma InsideFileInner(king: Square, s: Square, u: Square)
    requires Inside(king, s, u) && SameFile(king, s)
    ensures Has(INNER_RANKS, u)
  {
    InsideSameLine(king, s, u);
    assert 8 <= u < 56;
  }

  /** A square strictly between two squares of one rank is off the a- and h-files. */
  lemma InsideRankInner(king: Square, s: Square, u: Square)
    requires Inside(king, s, u) && SameRank(king, s)
    ensures Has(INNER_FILES, u)
  {
    InsideSameLine(king, s, u);
    assert 1 <= FileOf(u) <= 6;
  }

  /** A square strictly between two squares of one diagonal is off the board's edge. */
  lemma InsideDiagonalInner(king: Square, s: Square, u: Square)
    requires Inside(king, s, u) && (SameDiagNE(king, s) || SameDiagNW(king, s))
    ensures Has(INNER_SQUARES, u)
  {
    InsideSameLine(king, s, u);
    assert 1 <= FileOf(u) <= 6 && 8 <= u < 56;
  }

  /** The screen lifted by the x-ray holds the lone piece between when it is ours and the slider sees it. */
  lemma LoneInScreen(occ: Bitboard, ours: Bitboard, attacks: Bitboard, inner: Bitboard, u: Square)
    requires Has(ours, u) && Has(attacks, u) && Has(inner, u)
    ensures Has(Screen(ours, attacks, inner), u)
  {
    AndHas(attacks, inner, u);
    AndHas(ours, attacks & inner, u);
  }

  /** Our lone piece between the king and `s` on a file is in the screen the x-ray file attacks lift. */
  lemma FileScreenHolds(occ: Bitboard, ours: Bitboard, king: Square, s: Square, u: Square)
    requires SameFile(king, s) && AloneBetween(occ, king, s, u) && Has(ours, u)
    ensures Has(FileScreen(occ, ours, king), u)
  {
    InsideSameLine(king, s, u);
    AloneSeen(occ, king, s, u);
    FileAttacksOfHas(occ, king, u);
    InsideFileInner(king, s, u);
    LoneInScreen(occ, ours, FileAttacksOf(occ, king), INNER_RANKS, u);
  }

  /** The x-ray file attacks hold a square the lifted screen uncovers. */
  lemma FileUncovered(occ: Bitboard, ours: Bitboard, king: Square, s: Square)
    requires Within(ours, occ) && SameFile(king, s) && FileScreen(occ, ours, king) != 0
    requires Clear(king, Lift(occ, FileScreen(occ, ours, king)), s) && !Clear(king, occ, s)
    ensures Has(XrayFileOf(occ, ours, king), s)
  {
    XrayFileOfReveals(occ, ours, king, s);
  }

  /** An enemy slider on the king's file with just one of our pieces between is reached by the x-ray file attacks. */
  lemma FilePinnerFound(occ: Bitboard, ours: Bitboard, king: Square, s: Square, u: Square)
    requires Within(ours, occ) && SameFile(king, s) && AloneBetween(occ, king, s, u) && Has(ours, u)
    ensures Has(XrayFileOf(occ, ours, king), s)
  {
    var screen := FileScreen(occ, ours, king);
    FileScreenHolds(occ, ours, king, s, u);
    EmptyHas(u);
    ScreenWithin(ours, FileAttacksOf(occ, king), INNER_RANKS, occ);
    AloneLifted(occ, screen, king, s, u);
    AloneSeen(occ, king, s, u);
    FileUncovered(occ, ours, king, s);
  }

  /** Our lone piece between the king and `s` on a rank is in the screen the x-ray rank attacks lift. */
  lemma RankScreenHolds(occ: Bitboard, ours: Bitboard, king: Square, s: Square, u: Square)
    requires SameRank(king, s) && AloneBetween(occ, king, s, u) && Has(ours, u)
    ensures Has(RankScreen(occ, ours, king), u)
  {
    InsideSameLine(king, s, u);
    AloneSeen(occ, king, s, u);
    RankAttacksOfHas(occ, king, u);
    InsideRankInner(king, s, u);
    LoneInScreen(occ, ours, RankAttacksOf(occ, king), INNER_FILES, u);
  }

  /** The x-ray rank attacks hold a square the lifted screen uncovers. */
  lemma RankUncovered(occ: Bitboard, ours: Bitboard, king: Square, s: Square)
    requires Within(ours, occ) && SameRank(king, s) && RankScreen(occ, ours, king) != 0
    requires Clear(king, Lift(occ, RankScreen(occ, ours, king)), s) && !Clear(king, occ, s)
    ensures Has(XrayRankOf(occ, ours, king), s)
  {
    XrayRankOfReveals(occ, ours, king, s);
  }

  /** An enemy slider on the king's rank with just one of our pieces between is reached by the x-ray rank attacks. */
  lemma RankPinnerFound(occ: Bitboard, ours: Bitboard, king: Square, s: Square, u: Square)
    requires Within(ours, occ) && SameRank(king, s) && AloneBetween(occ, king, s, u) && Has(ours, u)
    ensures Has(XrayRankOf(occ, ours, king), s)
  {
    var screen := RankScreen(occ, ours, king);
    RankScreenHolds(occ, ours, king, s, u);
    EmptyHas(u);
    ScreenWithin(ours, RankAttacksOf(occ, king), INNER_FILES, occ);
    AloneLifted(occ, screen, king, s, u);
    AloneSeen(occ, king, s, u);
    RankUncovered(occ, ours, king, s);
  }

  /** Our lone piece between the king and `s` on a diagonal is in the screen the x-ray diagonal attacks lift. */
  lemma DiagonalScreenHolds(occ: Bitboard, ours: Bitboard, king: Square, s: Square, u: Square)
    requires (SameDiagNE(king, s) || SameDiagNW(king, s)) && AloneBetween(occ, king, s, u) && Has(ours, u)
    ensures Has(DiagonalScreen(occ, ours, king), u)
  {
    InsideSameLine(king, s, u);
    AloneSeen(occ, king, s, u);
    BishopAttacksHas(king, occ, u);
    InsideDiagonalInner(king, s, u);
    LoneInScreen(occ, ours, BishopAttacks(king, occ), INNER_SQUARES, u);
  }

  /** The x-ray diagonal attacks hold a square the lifted screen uncovers. */
  lemma DiagonalUncovered(occ: Bitboard, ours: Bitboard, king: Square, s: Square)
    requires Within(ours, occ) && (SameDiagNE(king, s) || SameDiagNW(king, s)) && DiagonalScreen(occ, ours, king) != 0
    requires Clear(king, Lift(occ, DiagonalScreen(occ, ours, king)), s) && !Clear(king, occ, s)
    ensures Has(XrayDiagonalOf(occ, ours, king), s)
  {
    XrayDiagonalOfReveals(occ, ours, king, s);
  }

  /** An enemy slider on a diagonal of the king with just one of our pieces between is reached by the x-ray diagonal attacks. */
  lemma DiagonalPinnerFound(occ: Bitboard, ours: Bitboard, king: Square, s: Square, u: Square)
    requires Within(ours, occ) && (SameDiagNE(king, s) || SameDiagNW(king, s)) && AloneBetween(occ, king, s, u) && Has(ours, u)
    ensures Has(XrayDiagonalOf(occ, ours, king), s)
  {
    var screen := DiagonalScreen(occ, ours, king);
    DiagonalScreenHolds(occ, ours, king, s, u);
    EmptyHas(u);
    ScreenWithin(ours, BishopAttacks(king, occ), INNER_SQUARES, occ);
    AloneLifted(occ, screen, king, s, u);
    AloneSeen(occ, king, s, u);
    DiagonalUncovered(occ, ours, king, s);
  }

  /**
   * genPinned finds every pin: an enemy queen or rook on the king's file
   * or rank, or an enemy queen or bishop on one of its diagonals, with
   * exactly one occupied square strictly between it and the king, held by
   * one of our pieces, is collected as a pinner and that piece is marked
   * pinned.
   */
  lemma PinnerFound(w: View, king: Square, s: Square, u: Square)
    requires w.Shaped() && OurKing(w) == Sq64(king) && Within(OurPieces(w), w.occupied)
    requires (Has(OtherQueenRooks(w), s) && (SameFile(king, s) || SameRank(king, s))) ||
             (Has(OtherQueenBishops(w), s) && (SameDiagNE(king, s) || SameDiagNW(king, s)))
    requires AloneBetween(w.occupied, king, s, u) && Has(OurPieces(w), u)
    ensures Has(Pinners(w), s)
    ensures Has(Pinned(w).pinned, u)
  {
    BitScanForwardSq64(king);
    PinnersFound(w.occupied, OurPieces(w), king, OtherQueenRooks(w), OtherQueenBishops(w), s, u);
    PinnedFound(Pins(w.pinned, w.pinner), Pinners(w), OurPieces(w), king, s, u);
  }

  lemma PinnersFound(occ: Bitboard, ours: Bitboard, king: Square, oqr: Bitboard, oqb: Bitboard, s: Square, u: Square)
    requires Within(ours, occ)
    requires (Has(oqr, s) && (SameFile(king, s) || SameRank(king, s))) || (Has(oqb, s) && (SameDiagNE(king, s) || SameDiagNW(king, s)))
    requires AloneBetween(occ, king, s, u) && Has(ours, u)
    ensures Has(PinnersOf(occ, ours, king, oqr, oqb), s)
  {
    var fileX, rankX, diagX := XrayFileOf(occ, ours, king), XrayRankOf(occ, ours, king), XrayDiagonalOf(occ, ours, king);
    JoinHas(Join(Masked(fileX, oqr), Masked(rankX, oqr)), Masked(diagX, oqb), s);
    JoinHas(Masked(fileX, oqr), Masked(rankX, oqr), s);
    MaskedHas(fileX, oqr, s);
    MaskedHas(rankX, oqr, s);
    MaskedHas(diagX, oqb, s);
    if Has(oqr, s) && SameFile(king, s) {
      FilePinnerFound(occ, ours, king, s, u);
    } else if Has(oqr, s) && SameRank(king, s) {
      RankPinnerFound(occ, ours, king, s, u);
    } else {
      DiagonalPinnerFound(occ, ours, king, s, u);
    }
  }

  /** A square inside the segment from `king` to `s` is inside the segment from `s` to `king`. */
  lemma InsideReversed(king: Square, s: Square, u: Square)
    requires Inside(king, s, u)
    ensures Inside(s, king, u)
  {
  }

  /** A step of genPinned's loop never unmarks a pinned piece. */
  lemma PinStepKeeps(ours: Bitboard, king: Square, a: Pins, t: Square, u: Square)
    requires Has(a.pinned, u)
    ensures Has(PinStep(ours, king)(a, t).pinned, u)
  {
    JoinHas(a.pinned, Masked(Obstructed(t, king), ours), u);
  }

  /** The step for a pinner `s` marks our piece strictly between `s` and the king. */
  lemma PinStepMarks(ours: Bitboard, king: Square, a: Pins, s: Square, u: Square)
    requires Inside(king, s, u) && Has(ours, u)
    ensures Has(PinStep(ours, king)(a, s).pinned, u)
  {
    InsideReversed(king, s, u);
    InsideIsObstructed(s, king, u);
    MaskedHas(Obstructed(s, king), ours, u);
    JoinHas(a.pinned, Masked(Obstructed(s, king), ours), u);
  }

  /** The loop of genPinned marks our pieces between the king and every pinner it visits. */
  lemma PinnedFound(start: Pins, xs: Bitboard, ours: Bitboard, king: Square, s: Square, u: Square)
    requires Has(xs, s) && Inside(king, s, u) && Has(ours, u)
    ensures Has(Fold(start, xs, PinStep(ours, king)).pinned, u)
  {
    var step := PinStep(ours, king);
    var inv := (st: Pins) => Has(st.pinned, u);
    forall a: Pins, t: Square | inv(a)
      ensures inv(step(a, t))
    {
      PinStepKeeps(ours, king, a, t, u);
    }
    forall a: Pins
      ensures inv(step(a, s))
    {
      PinStepMarks(ours, king, a, s, u);
    }
    FoldReaches(start, xs, step, inv, s);
  }
}
