/**
 * position_generateMoves and genCheckEvasions (src/position.c) as
 * functions: each `while (x) { sq = LS1B(x); ...; x = RESET_LS1B(x); }`
 * loop is a Fold over the squares of `x`, and listAdd appends one move to
 * the list.  The record `w` is the one genPinned and genAttacks leave.
 */
module MoveGen {
  import opened Bits
  import opened Wrappers
  import opened Pieces
  import opened Moves
  import opened Masks
  import opened Scan
  import opened MakeMove
  import opened PositionSpec
  import opened Legality

  /* ---------------------------------------------------------------- */
  /* listAdd and addPromotionMoves                                    */
  /* ---------------------------------------------------------------- */

  /** listAdd: append one move. */
  function Add(ms: seq<Move>, from: Square, to: Square, flags: MoveFlags): seq<Move> {
    ms + [NewMove(from, to, flags)]
  }

  /** addPromotionMoves: the four promotions of one pawn move, queen, bishop, knight and rook in that order. */
  function Promotions(from: Square, to: Square, base: MoveFlags): seq<Move> {
    var fs := PromotionFlags(base);
    [NewMove(from, to, fs[0]), NewMove(from, to, fs[1]), NewMove(from, to, fs[2]), NewMove(from, to, fs[3])]
  }

  /** Each promotion yields four moves between the same squares, one per kind, all marked as promotions. */
  lemma PromotionsFour(from: Square, to: Square, base: MoveFlags)
    ensures |Promotions(from, to, base)| == 4
    ensures forall i :: 0 <= i < 4 ==>
      Promotions(from, to, base)[i].from == from && Promotions(from, to, base)[i].to == to &&
      Promotions(from, to, base)[i].flags.promotion && Promotions(from, to, base)[i].flags.capture == base.capture
    ensures Promotions(from, to, base)[0].flags.promoQueen && Promotions(from, to, base)[1].flags.promoBishop
    ensures Promotions(from, to, base)[2].flags.promoKnight && Promotions(from, to, base)[3].flags.promoRook
  {
  }

  /** A pawn move to the first or last rank is added as its four promotions, any other as one move. */
  function AddPawnMove(ms: seq<Move>, from: Square, to: Square, base: MoveFlags): seq<Move> {
    if Has(RANK18, to) then ms + Promotions(from, to, base) else Add(ms, from, to, base)
  }

  /* ---------------------------------------------------------------- */
  /* Pawn pushes                                                      */
  /* ---------------------------------------------------------------- */

  /** The empty squares one step ahead of our pawns. */
  function SinglePushes(w: View): Bitboard
    requires w.Shaped()
  {
    if w.side == WHITE then Masked(NortOne(w.pieces[P]), w.empty) else Masked(SoutOne(w.pieces[p]), w.empty)
  }

  /** The empty squares on the fourth (White) or fifth (Black) rank one step beyond a single push. */
  function DoublePushes(w: View): Bitboard
    requires w.Shaped()
  {
    if w.side == WHITE then Masked(Masked(NortOne(SinglePushes(w)), w.empty), RANK4)
    else Masked(Masked(SoutOne(SinglePushes(w)), w.empty), RANK5)
  }

  /** The square a push to `to` starts from: `bb_to >> dist` for White, `bb_to << dist` for Black. */
  function PushFrom(side: int, to: Square, dist: Square): Square {
    if side == WHITE then to - dist else to + dist
  }

  /* ---------------------------------------------------------------- */
  /* Moves out of check (genCheckEvasions)                            */
  /* ---------------------------------------------------------------- */

  /** The enemy pieces attacking our king. */
  function Checkers(w: View): Bitboard
    requires w.Shaped() && OurKing(w) != 0
  {
    Masked(AttackersTo(w, BitScanForward(OurKing(w))), OtherPieces(w))
  }

  /** Our pieces other than the king that attack the single checker. */
  function CheckerTakers(w: View, checker: Square): Bitboard
    requires w.Shaped()
  {
    var ours := Masked(AttackersTo(w, checker), OurPieces(w));
    if !Disjoint(ours, OurKing(w)) then Flip(ours, OurKing(w)) else ours
  }

  /** One en-passant capture of genCheckEvasions: the pawn on `pawns` (beside the checker) takes on the en-passant square. */
  function EpTry(w: View, ms: seq<Move>, takers: Bitboard, pawns: Bitboard, ep: Square): (seq<Move>, Bitboard)
    requires w.Shaped()
  {
    if pawns != 0 && CanMove(w, BitScanForward(pawns), ep) then
      (Add(ms, BitScanForward(pawns), ep, EP_CAPTURE), Flip(takers, pawns))
    else (ms, takers)
  }

  /**
   * The en-passant part of genCheckEvasions as written: whenever an
   * en-passant square is set, a pawn of ours just west or east of the
   * checker takes en passant, whatever the checker is.
   */
  function EpEvasionsAsWritten(w: View, checkers: Bitboard, takers: Bitboard): (seq<Move>, Bitboard)
    requires w.Shaped()
  {
    if w.enpassant.Some? then
      var ep := w.enpassant.value;
      var first := EpTry(w, [], takers, Masked(WestOne(checkers), OurPawns(w)), ep);
      EpTry(w, first.0, first.1, Masked(EastOne(checkers), OurPawns(w)), ep)
    else ([], takers)
  }

  /** The enemy pawns. */
  function OtherPawns(w: View): Bitboard
    requires w.Shaped()
  {
    w.pieces[P + Other(w.side)]
  }

  /**
   * The en-passant part as intended ("we know the king attacker is a
   * pawn"): tried only when the checker is an enemy pawn, the one that
   * has just made the double move.
   */
  function EpEvasions(w: View, checkers: Bitboard, takers: Bitboard): (seq<Move>, Bitboard)
    requires w.Shaped()
  {
    if !Disjoint(checkers, OtherPawns(w)) then EpEvasionsAsWritten(w, checkers, takers) else ([], takers)
  }

  /** A capture of the checker by our piece on `from` (a pawn reaching the last rank promotes). */
  function CaptureStep(w: View, checkers: Bitboard): (seq<Move>, Square) -> seq<Move>
    requires w.Shaped()
  {
    (ms: seq<Move>, from: Square) =>
      var to := Masked(AttacksFrom(w.pieces, w.occupied, from), checkers);
      if to != 0 && CanMove(w, from, BitScanForward(to)) then
        if Has(OurPawns(w), from) && !Disjoint(RANK18, to) then ms + Promotions(from, BitScanForward(to), CAPTURE)
        else Add(ms, from, BitScanForward(to), CAPTURE)
      else ms
  }

  /** A single push onto a square between the checker and the king. */
  function BlockPushStep(w: View, between: Bitboard): (seq<Move>, Square) -> seq<Move>
    requires w.Shaped()
  {
    (ms: seq<Move>, to: Square) =>
      var from := PushFrom(w.side, to, 8);
      if Has(between, to) && CanMove(w, from, to) then AddPawnMove(ms, from, to, NORMAL) else ms
  }

  /** A double push onto a square between the checker and the king. */
  function BlockDoubleStep(w: View, between: Bitboard): (seq<Move>, Square) -> seq<Move>
    requires w.Shaped()
  {
    (ms: seq<Move>, to: Square) =>
      var from := PushFrom(w.side, to, 16);
      if Has(between, to) && CanMove(w, from, to) then Add(ms, from, to, PAWN_DOUBLE) else ms
  }

  /** Our pieces other than the king and the pawns. */
  function Officers(w: View): Bitboard
    requires w.Shaped()
  {
    Masked(Masked(OurPieces(w), Complement(OurKing(w))), Complement(OurPawns(w)))
  }

  /** Every officer of ours that attacks the square `to` between checker and king moves there. */
  function BlockStep(w: View): (seq<Move>, Square) -> seq<Move>
    requires w.Shaped()
  {
    (ms: seq<Move>, to: Square) =>
      Fold(ms, Masked(AttackersTo(w, to), Officers(w)), BlockerStep(w, to))
  }

  function BlockerStep(w: View, to: Square): (seq<Move>, Square) -> seq<Move>
    requires w.Shaped()
  {
    (ms: seq<Move>, from: Square) => if CanMove(w, from, to) then Add(ms, from, to, NORMAL) else ms
  }

  /** Parts 1 and 2 of genCheckEvasions, against a single checker on `checker`: capture it, or block its line. */
  function CaptureOrBlock(w: View, king: Square, checkers: Bitboard, checker: Square): seq<Move>
    requires w.Shaped()
  {
    var ep := EpEvasions(w, checkers, CheckerTakers(w, checker));
    var captures := Fold(ep.0, ep.1, CaptureStep(w, checkers));
    var between := Obstructed(checker, king);
    var singles := Fold(captures, SinglePushes(w), BlockPushStep(w, between));
    var doubles := Fold(singles, DoublePushes(w), BlockDoubleStep(w, between));
    Fold(doubles, between, BlockStep(w))
  }

  /** A king step to `to`, a capture when an enemy piece stands there. */
  function KingStep(w: View, king: Square): (seq<Move>, Square) -> seq<Move>
    requires w.Shaped()
  {
    (ms: seq<Move>, to: Square) =>
      if CanMove(w, king, to) then Add(ms, king, to, if Has(OtherPieces(w), to) then CAPTURE else NORMAL) else ms
  }

  /** The king's steps onto empty squares and enemy pieces. */
  function KingTargets(w: View, king: Square): Bitboard
    requires w.Shaped()
  {
    Masked(KingMoves(king), Join(w.empty, OtherPieces(w)))
  }

  /** genCheckEvasions: against one checker, captures and blocks; then, against any number, king moves. */
  function Evasions(w: View): seq<Move>
    requires w.Shaped() && OurKing(w) != 0
  {
    var king := BitScanForward(OurKing(w));
    var checkers := Checkers(w);
    var ms := if PopCount(checkers) == 1 then CaptureOrBlock(w, king, checkers, BitScanForward(checkers)) else [];
    Fold(ms, KingTargets(w, king), KingStep(w, king))
  }

  /* ---------------------------------------------------------------- */
  /* Moves when not in check                                          */
  /* ---------------------------------------------------------------- */

  /** One target of the piece on `from`, as the inner loop of position_generateMoves handles it. */
  function TargetStep(w: View, from: Square, ep: Bitboard): (seq<Move>, Square) -> seq<Move>
    requires w.Shaped()
  {
    (ms: seq<Move>, to: Square) =>
      if !CanMove(w, from, to) then ms
      else if ep != 0 && Sq64(to) == ep && Has(OurPawns(w), from) && CanTakeEp(w, from, to) then Add(ms, from, to, EP_CAPTURE)
      else if Has(OtherPieces(w), to) then
        if Has(OurPawns(w), from) && Has(RANK18, to) then ms + Promotions(from, to, CAPTURE) else Add(ms, from, to, CAPTURE)
      else if !Has(OurPawns(w), from) then Add(ms, from, to, NORMAL)
      else ms
  }

  /** The en-passant square as a board, empty when none is set. */
  function EpBoard(w: View): Bitboard {
    if w.enpassant.Some? then Sq64(w.enpassant.value) else EMPTY
  }

  /** What the piece on `from` attacks, less our own pieces. */
  function Targets(w: View, from: Square): Bitboard
    requires w.Shaped()
  {
    Masked(AttacksFrom(w.pieces, w.occupied, from), Join(OtherPieces(w), w.empty))
  }

  /** The outer loop: every piece of ours, through its targets. */
  function PieceStep(w: View): (seq<Move>, Square) -> seq<Move>
    requires w.Shaped()
  {
    (ms: seq<Move>, from: Square) => Fold(ms, Targets(w, from), TargetStep(w, from, EpBoard(w)))
  }

  /** The castling-rights bit, the king's destination and the squares that must be empty and unattacked, per side and wing. */
  function RightBit(side: int, kingSide: bool): bv4 {
    if side == WHITE then (if kingSide then W_CASTLE_K else W_CASTLE_Q) else (if kingSide then B_CASTLE_K else B_CASTLE_Q)
  }

  function CastleTarget(side: int, kingSide: bool): Square {
    if side == WHITE then (if kingSide then G1 else C1) else (if kingSide then G8 else C8)
  }

  /** The squares the king crosses or lands on, which must not be attacked (b1/b8 may be). */
  function SafeSquares(side: int, kingSide: bool): (Square, Square) {
    if side == WHITE then (if kingSide then (G1, F1) else (C1, D1)) else (if kingSide then (G8, F8) else (C8, D8))
  }

  /** The squares between king and rook, which must be empty. */
  function EmptySquares(side: int, kingSide: bool): Bitboard {
    if side == WHITE then (if kingSide then Join(Sq64(G1), Sq64(F1)) else Join(Join(Sq64(B1), Sq64(C1)), Sq64(D1)))
    else (if kingSide then Join(Sq64(G8), Sq64(F8)) else Join(Join(Sq64(B8), Sq64(C8)), Sq64(D8)))
  }

  /** One castle, offered when its right is held and its squares are safe and empty. */
  function Castle(w: View, from: Square, kingSide: bool): seq<Move>
    requires w.Shaped()
  {
    var safe := SafeSquares(w.side, kingSide);
    if w.castling & RightBit(w.side, kingSide) != 0 && !SquareAttacked(w, safe.0) && !SquareAttacked(w, safe.1) &&
       Disjoint(EmptySquares(w.side, kingSide), w.occupied)
    then [NewMove(from, CastleTarget(w.side, kingSide), if kingSide then CASTLE_KS else CASTLE_QS)]
    else []
  }

  /** The castling moves: king side first, then queen side, for the side to move. */
  function Castles(w: View): seq<Move>
    requires w.Shaped() && OurKing(w) != 0
  {
    if w.castling & (RightBit(w.side, true) | RightBit(w.side, false)) != 0 then
      var from := BitScanForward(OurKing(w));
      Castle(w, from, true) + Castle(w, from, false)
    else []
  }

  /** The part of the generator's state the pawn pushes change: the list, and `pinned`, which a pinned pawn free to push leaves. */
  datatype Gen = Gen(moves: seq<Move>, pinned: Bitboard)

  /** A single push to `to`: a pinned pawn that may push anyway is taken off `pinned` first. */
  function SingleStep(w: View): (Gen, Square) -> Gen
    requires w.Shaped()
  {
    (g: Gen, to: Square) =>
      var from := PushFrom(w.side, to, 8);
      var pinned := if Has(g.pinned, from) && CanMove(w.(pinned := g.pinned), from, to) then Flip(g.pinned, Sq64(from)) else g.pinned;
      Gen(if !Has(pinned, from) then AddPawnMove(g.moves, from, to, NORMAL) else g.moves, pinned)
  }

  /** A double push to `to`, for a pawn not (or no longer) pinned. */
  function DoubleStep(pinned: Bitboard, side: int): (seq<Move>, Square) -> seq<Move> {
    (ms: seq<Move>, to: Square) =>
      var from := PushFrom(side, to, 16);
      if !Has(pinned, from) then Add(ms, from, to, PAWN_DOUBLE) else ms
  }

  /** position_generateMoves when not in check: piece moves, castles, single then double pushes. */
  function QuietMoves(w: View): Gen
    requires w.Shaped() && OurKing(w) != 0
  {
    var pieces := Fold([], OurPieces(w), PieceStep(w));
    var singles := Fold(Gen(pieces + Castles(w), w.pinned), SinglePushes(w), SingleStep(w));
    Gen(Fold(singles.moves, DoublePushes(w), DoubleStep(singles.pinned, w.side)), singles.pinned)
  }

  /**
   * position_generateMoves on a refreshed record: genPinned, genAttacks,
   * then evasions (setting in_check, and checkmated when there are none)
   * or the ordinary moves.  Returns the new record and the list.
   */
  function Generate(v: View): (View, seq<Move>)
    requires v.Shaped() && KingsPresent(v)
  {
    var w := Attacked(WithPins(v));
    OurKingPresent(w);
    if InCheck(w) then
      var u := w.(inCheck := true);
      OurKingPresent(u);
      var ms := Evasions(u);
      (u.(checkmated := |ms| == 0), ms)
    else
      var g := QuietMoves(w);
      (w.(pinned := g.pinned), g.moves)
  }

  /* ---------------------------------------------------------------- */
  /* Properties                                                       */
  /* ---------------------------------------------------------------- */

  /** Every move of the list starts on `from`. */
  ghost predicate AllFrom(ms: seq<Move>, from: Square) {
    forall i :: 0 <= i < |ms| ==> ms[i].from == from
  }

  /** With two or more checkers (or none), genCheckEvasions produces only king moves. */
  lemma DoubleCheckKingOnly(w: View)
    requires w.Shaped() && OurKing(w) != 0 && PopCount(Checkers(w)) != 1
    ensures AllFrom(Evasions(w), BitScanForward(OurKing(w)))
  {
    KingMovesFrom(w, BitScanForward(OurKing(w)), []);
  }

  /** The king loop adds only moves of the king. */
  lemma KingMovesFrom(w: View, king: Square, acc: seq<Move>)
    requires w.Shaped() && AllFrom(acc, king)
    ensures AllFrom(Fold(acc, KingTargets(w, king), KingStep(w, king)), king)
  {
    forall ms: seq<Move>, to: Square | AllFrom(ms, king) && Has(KingTargets(w, king), to)
      ensures AllFrom(KingStep(w, king)(ms, to), king)
    {
      KingStepFrom(w, king, ms, to);
    }
    FoldKeeps(acc, KingTargets(w, king), KingStep(w, king), (ms: seq<Move>) => AllFrom(ms, king));
  }

  lemma KingStepFrom(w: View, king: Square, ms: seq<Move>, to: Square)
    requires w.Shaped() && AllFrom(ms, king)
    ensures AllFrom(KingStep(w, king)(ms, to), king)
  {
    var flags := if Has(OtherPieces(w), to) then CAPTURE else NORMAL;
    assert KingStep(w, king)(ms, to) == if CanMove(w, king, to) then Add(ms, king, to, flags) else ms;
    assert Add(ms, king, to, flags)[|ms|].from == king;
  }

  /** In check, the list is the evasion list, in_check is set, and checkmated is set exactly when that list is empty. */
  lemma GenerateInCheck(v: View)
    requires v.Shaped() && KingsPresent(v) && InCheck(Attacked(WithPins(v)))
    ensures Generate(v).0.inCheck
    ensures Generate(v).0.checkmated <==> |Generate(v).1| == 0
    ensures Generate(v).1 == Evasions(Attacked(WithPins(v)).(inCheck := true))
  {
  }

  /**
   * A castle is offered only with its right held, the squares between
   * king and rook empty, and the king's path unattacked.
   */
  lemma CastleNeeds(w: View, from: Square, kingSide: bool, m: Move)
    requires w.Shaped() && m in Castle(w, from, kingSide)
    ensures m.from == from && m.to == CastleTarget(w.side, kingSide) && m.flags.castle
    ensures w.castling & RightBit(w.side, kingSide) != 0
    ensures !SquareAttacked(w, SafeSquares(w.side, kingSide).0) && !SquareAttacked(w, SafeSquares(w.side, kingSide).1)
    ensures forall t: Square :: Has(EmptySquares(w.side, kingSide), t) ==> !Has(w.occupied, t)
  {
    forall t: Square | Has(EmptySquares(w.side, kingSide), t) ensures !Has(w.occupied, t) {
      DisjointHas(EmptySquares(w.side, kingSide), w.occupied, t);
    }
  }

  /** The squares a white king-side castle needs empty are f1 and g1, and so on for the other three. */
  lemma EmptySquaresAre(side: int, kingSide: bool, t: Square)
    requires IsSide(side)
    ensures Has(EmptySquares(side, kingSide), t) <==>
      if side == WHITE then (if kingSide then t == F1 || t == G1 else t == B1 || t == C1 || t == D1)
      else (if kingSide then t == F8 || t == G8 else t == B8 || t == C8 || t == D8)
  {
    if side == WHITE {
      if kingSide {
        JoinHas(Sq64(G1), Sq64(F1), t);
        Sq64Has(G1, t);
        Sq64Has(F1, t);
      } else {
        JoinHas(Join(Sq64(B1), Sq64(C1)), Sq64(D1), t);
        JoinHas(Sq64(B1), Sq64(C1), t);
        Sq64Has(B1, t);
        Sq64Has(C1, t);
        Sq64Has(D1, t);
      }
    } else {
      if kingSide {
        JoinHas(Sq64(G8), Sq64(F8), t);
        Sq64Has(G8, t);
        Sq64Has(F8, t);
      } else {
        JoinHas(Join(Sq64(B8), Sq64(C8)), Sq64(D8), t);
        JoinHas(Sq64(B8), Sq64(C8), t);
        Sq64Has(B8, t);
        Sq64Has(C8, t);
        Sq64Has(D8, t);
      }
    }
  }

  /* ---------------------------------------------------------------- */
  /* The en-passant evasion as written                                */
  /* ---------------------------------------------------------------- */

  /**
   * White to move, king h7, pawn b7; Black rook c7 checks along the
   * seventh rank after d7-d5 uncovered it, so d6 is the en-passant square.
   * The pawn on b7 stands west of the checker, so genCheckEvasions adds
   * b7xd6 en passant: a move the b7 pawn cannot make, which leaves the king
   * in check.  The intended version adds nothing, the checker being no pawn.
   */
  lemma RookCheckEpEvasion(w: View, takers: Bitboard)
    requires w.Shaped() && w.side == WHITE && w.enpassant == Some(D6) && w.pinned == EMPTY
    requires w.pieces[P] == Sq64(B7) && w.pieces[K] == Sq64(H7) && w.pieces[k] == Sq64(A1) && w.pieces[p] == Sq64(D5)
    ensures NewMove(B7, D6, EP_CAPTURE) in EpEvasionsAsWritten(w, Sq64(C7), takers).0
    ensures !Has(PieceAttacks(P, B7, w.occupied), D6)
    ensures EpEvasions(w, Sq64(C7), takers).0 == []
  {
    WestOneSq(C7);
    BitScanForwardSq64(B7);
    Sq64Has(A1, D6);
    Sq64Has(H7, B7);
    EmptyHas(B7);
    NoWeOneSq(B7);
    NoEaOneSq(B7);
    JoinHas(NoWeOne(Sq64(B7)), NoEaOne(Sq64(B7)), D6);
    Sq64Has(A8, D6);
    Sq64Has(C8, D6);
    MeetsSquare(Sq64(D5), C7);
    DisjointSym(Sq64(C7), Sq64(D5));
    Sq64Has(D5, C7);
  }

  /** An en-passant try adds at most one move, from the lowest of `pawns` to the en-passant square. */
  lemma EpTryAdds(w: View, ms: seq<Move>, takers: Bitboard, pawns: Bitboard, ep: Square, m: Move)
    requires w.Shaped() && m in EpTry(w, ms, takers, pawns, ep).0
    ensures m in ms || (pawns != 0 && Has(pawns, m.from) && m.to == ep && m.flags == EP_CAPTURE)
  {
    if pawns != 0 {
      BitScanForwardIsLs1b(pawns);
      Lowest(pawns);
    }
  }

  /** As intended, an en-passant evasion is only tried against a checking enemy pawn, and moves one of our pawns beside it. */
  lemma EpEvasionsOnlyAgainstPawn(w: View, checkers: Bitboard, takers: Bitboard, m: Move)
    requires w.Shaped() && m in EpEvasions(w, checkers, takers).0
    ensures !Disjoint(checkers, OtherPawns(w)) && w.enpassant == Some(m.to) && m.flags == EP_CAPTURE
    ensures Has(OurPawns(w), m.from) && (Has(WestOne(checkers), m.from) || Has(EastOne(checkers), m.from))
  {
    var ep := w.enpassant.value;
    var west := Masked(WestOne(checkers), OurPawns(w));
    var east := Masked(EastOne(checkers), OurPawns(w));
    var first := EpTry(w, [], takers, west, ep);
    EpTryAdds(w, first.0, first.1, east, ep, m);
    if m in first.0 {
      EpTryAdds(w, [], takers, west, ep, m);
      MaskedHas(WestOne(checkers), OurPawns(w), m.from);
    } else {
      MaskedHas(EastOne(checkers), OurPawns(w), m.from);
    }
  }
}
