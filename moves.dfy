/**
 * The move record that position.c reads and fills in.  A move names its
 * from and to squares and carries a set of flags (capture, en passant,
 * promotion and its kind, castle and its side, pawn double push); making it
 * records the captured piece, the en-passant square that was active before
 * it and the castling rights before it, which is what undoing it needs.
 */
module Moves {
  import opened Bits
  import opened Wrappers
  import opened Pieces

  /** The MOVE_* flag bits a move can carry. */
  datatype MoveFlags = MoveFlags(
    capture: bool,
    enpassant: bool,
    promotion: bool,
    promoQueen: bool,
    promoBishop: bool,
    promoKnight: bool,
    promoRook: bool,
    castle: bool,
    castleKingSide: bool,
    castleQueenSide: bool,
    pawnDouble: bool)

  const NORMAL: MoveFlags := MoveFlags(false, false, false, false, false, false, false, false, false, false, false)
  const CAPTURE: MoveFlags := NORMAL.(capture := true)
  const EP_CAPTURE: MoveFlags := NORMAL.(capture := true, enpassant := true)
  const PAWN_DOUBLE: MoveFlags := NORMAL.(pawnDouble := true)
  const CASTLE_KS: MoveFlags := NORMAL.(castle := true, castleKingSide := true)
  const CASTLE_QS: MoveFlags := NORMAL.(castle := true, castleQueenSide := true)

  /**
   * A move.  `captured`, `ep` and `castlingRights` are written by make-move:
   * the piece found on the destination (NONE_PIECE if none), the en-passant
   * square before the move (None for NONE_SQUARE) and the castling rights
   * before the move.
   */
  datatype Move = Move(
    from: Square,
    to: Square,
    flags: MoveFlags,
    captured: int,
    ep: Option<Square>,
    castlingRights: bv4)

  /** listAdd: a fresh move with the given squares and flags. */
  function NewMove(from: Square, to: Square, flags: MoveFlags): Move {
    Move(from, to, flags, NONE_PIECE, None, 0)
  }

  /** The promotion flags of each kind, in the order addPromotionMoves lists them. */
  function PromotionFlags(base: MoveFlags): seq<MoveFlags> {
    [base.(promotion := true, promoQueen := true),
     base.(promotion := true, promoBishop := true),
     base.(promotion := true, promoKnight := true),
     base.(promotion := true, promoRook := true)]
  }
}
