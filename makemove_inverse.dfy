/**
 * Undo-move inverts make-move: position_undoMove applied to the state and
 * the move that position_makeMove returns gives back the state before the
 * move, piece boards, side, en-passant square, castling rights and hash,
 * whatever the Zobrist keys.
 *
 * The proof has three layers.  The stage lemmas say what Make and Undo do
 * to each field, as one expression over the named board functions and the
 * toggled keys.  The case lemmas put the boards back, one kind of move at a
 * time (quiet move, capture, en passant, castling, promotion with and
 * without a capture), from the lemmas of PieceBoards.  The theorem at the
 * end puts the two together with Journal for the hash.
 */
module MakeMoveInverse {
  import opened Bits
  import opened Wrappers
  import opened Pieces
  import opened Moves
  import opened MakeMove
  import opened PieceBoards
  import opened MakeMoveProofs

  /** The king destinations for which make-move moves a rook. */
  predicate CastleTarget(to: Square) {
    to == G1 || to == C1 || to == G8 || to == C8
  }

  /** Two equalities that share a middle term. */
  lemma Chain<T>(a: T, b: T, c: T)
    requires a == b && b == c
    ensures a == c
  {
  }

  /** The piece that stands on the destination after the move: the promoted piece, or else the mover. */
  function Lands(ps: seq<Bitboard>, m: Move, side: int): int
    requires |ps| == 12 && IsSide(side)
  {
    if m.flags.promotion then PromotedPiece(m.flags, side) else PieceOn(ps, m.from)
  }

  /** The boards make-move leaves, stage by stage: the move, the capture, the promotion or castling. */
  function MadeBoards(ps: seq<Bitboard>, m: Move, side: int): (r: seq<Bitboard>)
    requires |ps| == 12 && IsSide(side)
    requires IsPiece(PieceOn(ps, m.from))
    requires m.flags.capture && !m.flags.enpassant ==> IsPiece(PieceOn(ps, m.to))
    ensures |r| == 12
  {
    SpecialBoards(CaptureBoards(Moved(ps, PieceOn(ps, m.from), m.from, m.to), m.flags, m.to, PieceOn(ps, m.to)),
                  m.flags, m.to, side)
  }

  /** The boards undo-move leaves, stage by stage, when `x` is the piece it finds on the destination. */
  function UnmadeBoards(ps: seq<Bitboard>, m: Move, side: int, x: int): (r: seq<Bitboard>)
    requires |ps| == 12 && IsSide(side) && IsPiece(x)
    requires m.flags.capture && !m.flags.enpassant ==> IsPiece(m.captured)
    ensures |r| == 12
  {
    UnspecialBoards(UncaptureBoards(Unmoved(ps, x, m.from, m.to), m.flags, m.to, m.captured), m.flags, m.from, m.to, side)
  }

  /* ---------------------------------------------------------------- */
  /* Stage lemmas                                                      */
  /* ---------------------------------------------------------------- */

  /** The move record that make-move returns: the move itself, with what undo-move needs saved in it. */
  lemma MakeRecord(c: Core, m: Move, z: Zobrist)
    requires Playable(c, m) && z.Valid()
    ensures Make(c, m, z).0.WellFormed()
    ensures Make(c, m, z).1.from == m.from && Make(c, m, z).1.to == m.to && Make(c, m, z).1.flags == m.flags
    ensures Make(c, m, z).1.captured == PieceOn(c.pieces, m.to)
    ensures Make(c, m, z).1.ep == c.enpassant && Make(c, m, z).1.castlingRights == c.castling
  {
  }

  /** Make-move's boards. */
  lemma MakePieces(c: Core, m: Move, z: Zobrist)
    requires Playable(c, m) && z.Valid()
    ensures Make(c, m, z).0.pieces == MadeBoards(c.pieces, m, c.side)
  {
    var x := PieceOn(c.pieces, m.from);
    var y := PieceOn(c.pieces, m.to);
    var c2 := DropEnPassant(Relocate(c, x, m.from, m.to, z), z);
    var c4 := LoseRights(MakeCapture(c2, m, y, z), m, z);
    assert c4.pieces == CaptureBoards(Moved(c.pieces, x, m.from, m.to), m.flags, m.to, y);
    assert MakeSpecial(c4, m, z).pieces == MadeBoards(c.pieces, m, c.side);
  }

  /**
   * Make-move's side, castling rights and en-passant square: the side flips,
   * the rights lose the bits of the squares left and reached, and the
   * en-passant square is the one the move itself opens, if any, judged on
   * the boards after the move.
   */
  lemma MakeFields(c: Core, m: Move, z: Zobrist)
    requires Playable(c, m) && z.Valid()
    ensures Make(c, m, z).0.side == 1 - c.side
    ensures Make(c, m, z).0.castling == ClearRights(ClearRights(c.castling, m.from), m.to)
    ensures Make(c, m, z).0.enpassant == NewEnPassant(MadeBoards(c.pieces, m, c.side), c.side, m)
  {
    MakePieces(c, m, z);
  }

  /** Make-move's hash: the keys it toggles, in the order position_makeMove toggles them. */
  lemma MakeHash(c: Core, m: Move, z: Zobrist)
    requires Playable(c, m) && z.Valid()
    ensures var x := PieceOn(c.pieces, m.from);
            var c' := Make(c, m, z).0;
            c'.hash == Toggle(Toggle(Toggle(Toggle(Toggle(Toggle(Toggle(Toggle(Toggle(c.hash,
                         z.Key(x, m.from)), z.Key(x, m.to)),
                         EpHash(c.enpassant, z)),
                         MakeCaptureKey(m.flags, m.to, PieceOn(c.pieces, m.to), z)),
                         z.CastlingKey(c.castling)), z.CastlingKey(c'.castling)),
                         MakeSpecialKey(m.flags, m.to, c.side, z)),
                         EpHash(c'.enpassant, z)),
                         z.side)
  {
    var x := PieceOn(c.pieces, m.from);
    var c1 := Relocate(c, x, m.from, m.to, z);
    var c2 := DropEnPassant(c1, z);
    var c3 := MakeCapture(c2, m, PieceOn(c.pieces, m.to), z);
    var c4 := LoseRights(c3, m, z);
    var c5 := MakeSpecial(c4, m, z);
    var c6 := MarkEnPassant(c5, m, z);
    assert c4.side == c.side && c6.castling == c4.castling;
    assert Make(c, m, z).0 == SwitchSide(c6, z);
  }

  /** Undo-move's boards, with the piece its scan finds on the destination. */
  lemma UndoPieces(c: Core, m: Move, z: Zobrist)
    requires Undoable(c, m) && z.Valid()
    ensures Undo(c, m, z).pieces == UnmadeBoards(c.pieces, m, 1 - c.side, FirstOn(c.pieces, m.to, 0))
  {
    var x := FirstOn(c.pieces, m.to, 0);
    var c3 := RestoreEnPassant(MoveBack(SwitchSide(c, z), x, m.from, m.to, z), m.ep, z);
    assert UndoCapture(c3, m, z).pieces == UncaptureBoards(Unmoved(c.pieces, x, m.from, m.to), m.flags, m.to, m.captured);
  }

  /** Undo-move's side, castling rights and en-passant square: all from the move record. */
  lemma UndoFields(c: Core, m: Move, z: Zobrist)
    requires Undoable(c, m) && z.Valid()
    ensures Undo(c, m, z).side == 1 - c.side
    ensures Undo(c, m, z).castling == m.castlingRights
    ensures Undo(c, m, z).enpassant == m.ep
  {
  }

  /** Undo-move's hash: the keys it toggles, in the order position_undoMove toggles them. */
  lemma UndoHash(c: Core, m: Move, z: Zobrist)
    requires Undoable(c, m) && z.Valid()
    ensures var x := FirstOn(c.pieces, m.to, 0);
            Undo(c, m, z).hash == Toggle(Toggle(Toggle(Toggle(Toggle(Toggle(Toggle(Toggle(Toggle(c.hash,
                         z.side),
                         z.Key(x, m.from)), z.Key(x, m.to)),
                         EpHash(c.enpassant, z)), EpHash(m.ep, z)),
                         CaptureKey(m.flags, m.to, m.captured, z)),
                         UndoSpecialKey(m.flags, m.from, m.to, 1 - c.side, z)),
                         z.CastlingKey(c.castling)), z.CastlingKey(m.castlingRights))
  {
    var x := FirstOn(c.pieces, m.to, 0);
    var c1 := SwitchSide(c, z);
    var c2 := MoveBack(c1, x, m.from, m.to, z);
    var c3 := RestoreEnPassant(c2, m.ep, z);
    var c4 := UndoCapture(c3, m, z);
    var c5 := UndoSpecial(c4, m, z);
    assert c5.side == 1 - c.side && c5.castling == c.castling;
    assert Undo(c, m, z) == RestoreRights(c5, m.castlingRights, z);
  }

  /* ---------------------------------------------------------------- */
  /* Case lemmas: the boards                                           */
  /* ---------------------------------------------------------------- */

  /** A quiet move: the scan of undo-move finds the mover, and moving it back restores every board. */
  lemma QuietRestored(ps: seq<Bitboard>, x: int, f: Square, t: Square)
    requires |ps| == 12 && IsPiece(x) && f != t && EmptyOn(ps, t)
    ensures FirstOn(Moved(ps, x, f, t), t, 0) == x
    ensures Unmoved(Moved(ps, x, f, t), x, f, t) == ps
  {
    var p1 := Moved(ps, x, f, t);
    QuietLands(ps, x, f, t, p1);
    OnlyOnFound(p1, t, x);
    QuietBack(ps, x, f, t, p1);
  }

  /** A capture of `v` from square `e` (the destination, or the square behind it en passant). */
  lemma CaptureRestored(ps: seq<Bitboard>, x: int, v: int, f: Square, t: Square, e: Square)
    requires |ps| == 12 && IsPiece(x) && IsPiece(v) && x != v && f != t
    requires (e == t && OnlyOn(ps, t, v)) || (e != t && EmptyOn(ps, t) && Has(ps[v], e))
    ensures FirstOn(Del(Moved(ps, x, f, t), v, e), t, 0) == x
    ensures Add(Unmoved(Del(Moved(ps, x, f, t), v, e), x, f, t), v, e) == ps
  {
    var p1 := Moved(ps, x, f, t);
    var p2 := Del(p1, v, e);
    if e == t {
      CaptureLands(ps, x, v, f, t, p1, p2);
    } else {
      EnPassantLands(ps, x, v, f, t, e, p1, p2);
    }
    OnlyOnFound(p2, t, x);
    var q1 := Unmoved(p2, x, f, t);
    CaptureBack(ps, x, v, f, t, e, p1, p2, q1);
  }

  /** Castling: the king `x` moves from `f` to `t` and the rook `w` from `h` to `g`. */
  lemma CastleRestored(ps: seq<Bitboard>, x: int, w: int, f: Square, t: Square, h: Square, g: Square)
    requires |ps| == 12 && IsPiece(x) && IsPiece(w) && x != w && f != t && t != h && t != g
    requires EmptyOn(ps, t) && Has(ps[w], h) && !Has(ps[w], g)
    ensures FirstOn(Shift(Moved(ps, x, f, t), w, h, g), t, 0) == x
    ensures Shift(Unmoved(Shift(Moved(ps, x, f, t), w, h, g), x, f, t), w, g, h) == ps
  {
    var p1 := Moved(ps, x, f, t);
    var p2 := Del(p1, w, h);
    var p3 := Add(p2, w, g);
    assert Shift(p1, w, h, g) == p3;
    CastleLands(ps, x, w, f, t, h, g, p1, p2, p3);
    OnlyOnFound(p3, t, x);
    var q1 := Unmoved(p3, x, f, t);
    var q2 := Del(q1, w, g);
    CastleBack(ps, x, w, f, t, h, g, p1, p2, p3, q1, q2);
    assert Shift(q1, w, g, h) == Add(q2, w, h);
  }

  /** A promotion of the pawn `x` to `nw` on an empty square. */
  lemma PromotionRestored(ps: seq<Bitboard>, x: int, nw: int, f: Square, t: Square)
    requires |ps| == 12 && IsPiece(x) && IsPiece(nw) && x != nw && f != t
    requires EmptyOn(ps, t) && Has(ps[x], f) && !Has(ps[nw], f)
    ensures FirstOn(Add(Del(Moved(ps, x, f, t), x, t), nw, t), t, 0) == nw
    ensures Add(Del(Unmoved(Add(Del(Moved(ps, x, f, t), x, t), nw, t), nw, f, t), nw, f), x, f) == ps
  {
    var p1 := Moved(ps, x, f, t);
    var p2 := Del(p1, x, t);
    var p3 := Add(p2, nw, t);
    PromotionLands(ps, x, nw, f, t, p1, p2, p3);
    OnlyOnFound(p3, t, nw);
    var q1 := Unmoved(p3, nw, f, t);
    var q2 := Del(q1, nw, f);
    PromotionBack(ps, x, nw, f, t, p1, p2, p3, q1, q2);
  }

  /** A promotion of the pawn `x` to `nw` that captures `y`. */
  lemma PromotionCaptureRestored(ps: seq<Bitboard>, x: int, y: int, nw: int, f: Square, t: Square)
    requires |ps| == 12 && IsPiece(x) && IsPiece(y) && IsPiece(nw) && x != y && y != nw && x != nw && f != t
    requires OnlyOn(ps, t, y) && Has(ps[x], f) && !Has(ps[nw], f)
    ensures FirstOn(Add(Del(Del(Moved(ps, x, f, t), y, t), x, t), nw, t), t, 0) == nw
    ensures Add(Del(Add(Unmoved(Add(Del(Del(Moved(ps, x, f, t), y, t), x, t), nw, t), nw, f, t), y, t), nw, f), x, f) == ps
  {
    var p1 := Moved(ps, x, f, t);
    var p2 := Del(p1, y, t);
    var p3 := Del(p2, x, t);
    var p4 := Add(p3, nw, t);
    PromotionCaptureLands(ps, x, y, nw, f, t, p1, p2, p3, p4);
    OnlyOnFound(p4, t, nw);
    var q1 := Unmoved(p4, nw, f, t);
    var q2 := Add(q1, y, t);
    var q3 := Del(q2, nw, f);
    PromotionCaptureBack(ps, x, y, nw, f, t, p1, p2, p3, p4, q1, q2, q3);
  }

  /* ---------------------------------------------------------------- */
  /* Case lemmas: the stages of make-move and undo-move on the boards  */
  /* ---------------------------------------------------------------- */

  /** Without a capture flag the capture steps leave the boards alone. */
  lemma CaptureBoardsQuiet(ps: seq<Bitboard>, f: MoveFlags, to: Square, y: int)
    requires |ps| == 12 && !f.capture
    ensures CaptureBoards(ps, f, to, y) == ps && UncaptureBoards(ps, f, to, y) == ps
  {
  }

  /** An ordinary capture removes and puts back the piece on the destination. */
  lemma CaptureBoardsPlain(ps: seq<Bitboard>, f: MoveFlags, to: Square, y: int)
    requires |ps| == 12 && f.capture && !f.enpassant && IsPiece(y)
    ensures CaptureBoards(ps, f, to, y) == Del(ps, y, to) && UncaptureBoards(ps, f, to, y) == Add(ps, y, to)
  {
  }

  /** An en-passant capture by white removes and puts back the black pawn behind a sixth-rank destination. */
  lemma CaptureBoardsWhiteEnPassant(ps: seq<Bitboard>, f: MoveFlags, to: Square, y: int)
    requires |ps| == 12 && f.capture && f.enpassant && Has(RANK6, to)
    ensures CaptureBoards(ps, f, to, y) == Del(ps, p, to - 8) && UncaptureBoards(ps, f, to, y) == Add(ps, p, to - 8)
  {
    RanksApart(to);
  }

  /** An en-passant capture by black removes and puts back the white pawn in front of a third-rank destination. */
  lemma CaptureBoardsBlackEnPassant(ps: seq<Bitboard>, f: MoveFlags, to: Square, y: int)
    requires |ps| == 12 && f.capture && f.enpassant && Has(RANK3, to)
    ensures CaptureBoards(ps, f, to, y) == Del(ps, P, to + 8) && UncaptureBoards(ps, f, to, y) == Add(ps, P, to + 8)
  {
    RanksApart(to);
  }

  /** Outside promotions and the four castling moves the special steps leave the boards alone. */
  lemma SpecialBoardsPlain(ps: seq<Bitboard>, f: MoveFlags, from: Square, to: Square, side: int)
    requires |ps| == 12 && IsSide(side) && !f.promotion && !(f.castle && CastleTarget(to))
    ensures SpecialBoards(ps, f, to, side) == ps && UnspecialBoards(ps, f, from, to, side) == ps
  {
  }

  /** A promotion replaces the pawn on the destination by the new piece; undoing it replaces the new piece on the origin by the pawn. */
  lemma SpecialBoardsPromotion(ps: seq<Bitboard>, f: MoveFlags, from: Square, to: Square, side: int)
    requires |ps| == 12 && IsSide(side) && f.promotion && PromotionKind(f)
    ensures SpecialBoards(ps, f, to, side) == Add(Del(ps, P + side, to), PromotedPiece(f, side), to)
    ensures UnspecialBoards(ps, f, from, to, side) == Add(Del(ps, PromotedPiece(f, side), from), P + side, from)
  {
  }

  /** The rook of a castling, as make-move and undo-move shift it. */
  lemma SpecialBoardsCastle(ps: seq<Bitboard>, f: MoveFlags, from: Square, to: Square, side: int)
    requires |ps| == 12 && IsSide(side) && !f.promotion && f.castle
    ensures to == G1 ==> SpecialBoards(ps, f, to, side) == Shift(ps, R, H1, F1) && UnspecialBoards(ps, f, from, to, side) == Shift(ps, R, F1, H1)
    ensures to == C1 ==> SpecialBoards(ps, f, to, side) == Shift(ps, R, A1, D1) && UnspecialBoards(ps, f, from, to, side) == Shift(ps, R, D1, A1)
    ensures to == G8 ==> SpecialBoards(ps, f, to, side) == Shift(ps, r, H8, F8) && UnspecialBoards(ps, f, from, to, side) == Shift(ps, r, F8, H8)
    ensures to == C8 ==> SpecialBoards(ps, f, to, side) == Shift(ps, r, A8, D8) && UnspecialBoards(ps, f, from, to, side) == Shift(ps, r, D8, A8)
  {
  }

  /* ---------------------------------------------------------------- */
  /* Case lemmas: the whole boards                                     */
  /* ---------------------------------------------------------------- */

  /** `m'` is `m` as make-move records it: same squares and flags, and the piece found on the destination. */
  predicate Recorded(ps: seq<Bitboard>, m: Move, m': Move)
    requires |ps| == 12
  {
    m'.from == m.from && m'.to == m.to && m'.flags == m.flags && m'.captured == PieceOn(ps, m.to)
  }

  /** The mover stands alone on the origin. */
  lemma MoverOn(c: Core, m: Move)
    requires Fits(c, m)
    ensures OnlyOn(c.pieces, m.from, PieceOn(c.pieces, m.from))
  {
    PieceOnOnly(c.pieces, m.from);
  }

  /** The destination is empty, or holds the piece make-move's scan finds there and no other. */
  lemma TargetOn(c: Core, m: Move)
    requires Fits(c, m)
    ensures PieceOn(c.pieces, m.to) == NONE_PIECE ==> EmptyOn(c.pieces, m.to)
    ensures PieceOn(c.pieces, m.to) != NONE_PIECE ==> OnlyOn(c.pieces, m.to, PieceOn(c.pieces, m.to))
  {
    if PieceOn(c.pieces, m.to) == NONE_PIECE {
      PieceOnEmpty(c.pieces, m.to);
    } else {
      PieceOnOnly(c.pieces, m.to);
    }
  }

  lemma QuietCase(c: Core, m: Move, m': Move)
    requires Fits(c, m) && Recorded(c.pieces, m, m')
    requires !m.flags.capture && !m.flags.promotion && !(m.flags.castle && CastleTarget(m.to))
    ensures FirstOn(MadeBoards(c.pieces, m, c.side), m.to, 0) == Lands(c.pieces, m, c.side)
    ensures UnmadeBoards(MadeBoards(c.pieces, m, c.side), m', c.side, Lands(c.pieces, m, c.side)) == c.pieces
  {
    var ps, x, f, t := c.pieces, PieceOn(c.pieces, m.from), m.from, m.to;
    TargetOn(c, m);
    CaptureBoardsQuiet(Moved(ps, x, f, t), m.flags, t, PieceOn(ps, t));
    SpecialBoardsPlain(Moved(ps, x, f, t), m.flags, f, t, c.side);
    QuietRestored(ps, x, f, t);
    CaptureBoardsQuiet(Unmoved(Moved(ps, x, f, t), x, f, t), m.flags, t, m'.captured);
    SpecialBoardsPlain(Unmoved(Moved(ps, x, f, t), x, f, t), m.flags, f, t, c.side);
  }

  lemma CaptureCase(c: Core, m: Move, m': Move)
    requires Fits(c, m) && Recorded(c.pieces, m, m')
    requires m.flags.capture && !m.flags.enpassant && !m.flags.promotion
    ensures FirstOn(MadeBoards(c.pieces, m, c.side), m.to, 0) == Lands(c.pieces, m, c.side)
    ensures UnmadeBoards(MadeBoards(c.pieces, m, c.side), m', c.side, Lands(c.pieces, m, c.side)) == c.pieces
  {
    var ps, x, y, f, t := c.pieces, PieceOn(c.pieces, m.from), PieceOn(c.pieces, m.to), m.from, m.to;
    TargetOn(c, m);
    var p1 := Moved(ps, x, f, t);
    CaptureBoardsPlain(p1, m.flags, t, y);
    SpecialBoardsPlain(Del(p1, y, t), m.flags, f, t, c.side);
    CaptureRestored(ps, x, y, f, t, t);
    var q1 := Unmoved(Del(p1, y, t), x, f, t);
    CaptureBoardsPlain(q1, m.flags, t, y);
    SpecialBoardsPlain(Add(q1, y, t), m.flags, f, t, c.side);
  }

  /** An en-passant capture of the pawn `v` on `e`, behind the destination, once the capture steps are known to remove and restore it. */
  lemma EnPassantVictim(c: Core, m: Move, m': Move, v: int, e: Square)
    requires Fits(c, m) && Recorded(c.pieces, m, m') && m.flags.capture && m.flags.enpassant
    requires IsPiece(v) && ColorOf(v) != c.side && e != m.to && PieceOn(c.pieces, e) == v
    requires var p1 := Moved(c.pieces, PieceOn(c.pieces, m.from), m.from, m.to);
             CaptureBoards(p1, m.flags, m.to, PieceOn(c.pieces, m.to)) == Del(p1, v, e)
    requires var q1 := Unmoved(Del(Moved(c.pieces, PieceOn(c.pieces, m.from), m.from, m.to), v, e), PieceOn(c.pieces, m.from), m.from, m.to);
             UncaptureBoards(q1, m.flags, m.to, m'.captured) == Add(q1, v, e)
    ensures FirstOn(MadeBoards(c.pieces, m, c.side), m.to, 0) == Lands(c.pieces, m, c.side)
    ensures UnmadeBoards(MadeBoards(c.pieces, m, c.side), m', c.side, Lands(c.pieces, m, c.side)) == c.pieces
  {
    var ps, x, f, t := c.pieces, PieceOn(c.pieces, m.from), m.from, m.to;
    TargetOn(c, m);
    PieceOnOnly(ps, e);
    var p1 := Moved(ps, x, f, t);
    SpecialBoardsPlain(Del(p1, v, e), m.flags, f, t, c.side);
    CaptureRestored(ps, x, v, f, t, e);
    var q1 := Unmoved(Del(p1, v, e), x, f, t);
    SpecialBoardsPlain(Add(q1, v, e), m.flags, f, t, c.side);
  }

  lemma EnPassantCase(c: Core, m: Move, m': Move)
    requires Fits(c, m) && Recorded(c.pieces, m, m')
    requires m.flags.capture && m.flags.enpassant
    ensures FirstOn(MadeBoards(c.pieces, m, c.side), m.to, 0) == Lands(c.pieces, m, c.side)
    ensures UnmadeBoards(MadeBoards(c.pieces, m, c.side), m', c.side, Lands(c.pieces, m, c.side)) == c.pieces
  {
    var ps, x, f, t := c.pieces, PieceOn(c.pieces, m.from), m.from, m.to;
    var p1 := Moved(ps, x, f, t);
    if c.side == WHITE {
      CaptureBoardsWhiteEnPassant(p1, m.flags, t, PieceOn(ps, t));
      CaptureBoardsWhiteEnPassant(Unmoved(Del(p1, p, t - 8), x, f, t), m.flags, t, m'.captured);
      EnPassantVictim(c, m, m', p, t - 8);
    } else {
      CaptureBoardsBlackEnPassant(p1, m.flags, t, PieceOn(ps, t));
      CaptureBoardsBlackEnPassant(Unmoved(Del(p1, P, t + 8), x, f, t), m.flags, t, m'.captured);
      EnPassantVictim(c, m, m', P, t + 8);
    }
  }

  /** The rook `w` of a castling to `to` goes from the corner `h` to `g`. */
  predicate CastleRook(to: Square, w: int, h: Square, g: Square) {
    (to == G1 && w == R && h == H1 && g == F1) || (to == C1 && w == R && h == A1 && g == D1) ||
    (to == G8 && w == r && h == H8 && g == F8) || (to == C8 && w == r && h == A8 && g == D8)
  }

  /** Castling with the rook `w` standing on its corner `h` and its destination `g` empty. */
  lemma CastleCorner(c: Core, m: Move, m': Move, w: int, h: Square, g: Square)
    requires Fits(c, m) && Recorded(c.pieces, m, m')
    requires !m.flags.capture && !m.flags.promotion && m.flags.castle && CastleRook(m.to, w, h, g)
    requires PieceOn(c.pieces, h) == w && PieceOn(c.pieces, g) == NONE_PIECE
    ensures FirstOn(MadeBoards(c.pieces, m, c.side), m.to, 0) == Lands(c.pieces, m, c.side)
    ensures UnmadeBoards(MadeBoards(c.pieces, m, c.side), m', c.side, Lands(c.pieces, m, c.side)) == c.pieces
  {
    var ps, x, f, t := c.pieces, PieceOn(c.pieces, m.from), m.from, m.to;
    TargetOn(c, m);
    PieceOnOnly(ps, h);
    PieceOnEmpty(ps, g);
    var p1 := Moved(ps, x, f, t);
    CaptureBoardsQuiet(p1, m.flags, t, PieceOn(ps, t));
    SpecialBoardsCastle(p1, m.flags, f, t, c.side);
    CastleRestored(ps, x, w, f, t, h, g);
    var q1 := Unmoved(Shift(p1, w, h, g), x, f, t);
    CaptureBoardsQuiet(q1, m.flags, t, m'.captured);
    SpecialBoardsCastle(q1, m.flags, f, t, c.side);
  }

  lemma CastleCase(c: Core, m: Move, m': Move)
    requires Fits(c, m) && Recorded(c.pieces, m, m')
    requires !m.flags.promotion && m.flags.castle && CastleTarget(m.to)
    ensures FirstOn(MadeBoards(c.pieces, m, c.side), m.to, 0) == Lands(c.pieces, m, c.side)
    ensures UnmadeBoards(MadeBoards(c.pieces, m, c.side), m', c.side, Lands(c.pieces, m, c.side)) == c.pieces
  {
    if m.to == G1 {
      CastleCorner(c, m, m', R, H1, F1);
    } else if m.to == C1 {
      CastleCorner(c, m, m', R, A1, D1);
    } else if m.to == G8 {
      CastleCorner(c, m, m', r, H8, F8);
    } else {
      CastleCorner(c, m, m', r, A8, D8);
    }
  }

  lemma PromotionCase(c: Core, m: Move, m': Move)
    requires Fits(c, m) && Recorded(c.pieces, m, m')
    requires m.flags.promotion && !m.flags.capture
    ensures FirstOn(MadeBoards(c.pieces, m, c.side), m.to, 0) == Lands(c.pieces, m, c.side)
    ensures UnmadeBoards(MadeBoards(c.pieces, m, c.side), m', c.side, Lands(c.pieces, m, c.side)) == c.pieces
  {
    var ps, x, nw, f, t := c.pieces, PieceOn(c.pieces, m.from), PromotedPiece(m.flags, c.side), m.from, m.to;
    TargetOn(c, m);
    MoverOn(c, m);
    var p1 := Moved(ps, x, f, t);
    CaptureBoardsQuiet(p1, m.flags, t, PieceOn(ps, t));
    SpecialBoardsPromotion(p1, m.flags, f, t, c.side);
    PromotionRestored(ps, x, nw, f, t);
    var q1 := Unmoved(Add(Del(p1, x, t), nw, t), nw, f, t);
    CaptureBoardsQuiet(q1, m.flags, t, m'.captured);
    SpecialBoardsPromotion(q1, m.flags, f, t, c.side);
  }

  lemma PromotionCaptureCase(c: Core, m: Move, m': Move)
    requires Fits(c, m) && Recorded(c.pieces, m, m')
    requires m.flags.promotion && m.flags.capture
    ensures FirstOn(MadeBoards(c.pieces, m, c.side), m.to, 0) == Lands(c.pieces, m, c.side)
    ensures UnmadeBoards(MadeBoards(c.pieces, m, c.side), m', c.side, Lands(c.pieces, m, c.side)) == c.pieces
  {
    var ps, x, y, f, t := c.pieces, PieceOn(c.pieces, m.from), PieceOn(c.pieces, m.to), m.from, m.to;
    var nw := PromotedPiece(m.flags, c.side);
    TargetOn(c, m);
    MoverOn(c, m);
    var p1 := Moved(ps, x, f, t);
    CaptureBoardsPlain(p1, m.flags, t, y);
    SpecialBoardsPromotion(Del(p1, y, t), m.flags, f, t, c.side);
    PromotionCaptureRestored(ps, x, y, nw, f, t);
    var q1 := Unmoved(Add(Del(Del(p1, y, t), x, t), nw, t), nw, f, t);
    CaptureBoardsPlain(q1, m.flags, t, y);
    SpecialBoardsPromotion(Add(q1, y, t), m.flags, f, t, c.side);
  }

  /** Every kind of move the engine generates: the piece that lands is found on the destination, and undoing the board steps restores the boards. */
  lemma BoardsRestored(c: Core, m: Move, m': Move)
    requires Fits(c, m) && Recorded(c.pieces, m, m')
    ensures IsPiece(Lands(c.pieces, m, c.side))
    ensures FirstOn(MadeBoards(c.pieces, m, c.side), m.to, 0) == Lands(c.pieces, m, c.side)
    ensures UnmadeBoards(MadeBoards(c.pieces, m, c.side), m', c.side, Lands(c.pieces, m, c.side)) == c.pieces
  {
    if m.flags.promotion {
      if m.flags.capture {
        PromotionCaptureCase(c, m, m');
      } else {
        PromotionCase(c, m, m');
      }
    } else if m.flags.capture {
      if m.flags.enpassant {
        EnPassantCase(c, m, m');
      } else {
        CaptureCase(c, m, m');
      }
    } else if m.flags.castle && CastleTarget(m.to) {
      CastleCase(c, m, m');
    } else {
      QuietCase(c, m, m');
    }
  }

  /** The keys of the mover and of the special step, as make-move and undo-move toggle them, combine alike. */
  lemma MoverKeysAgree(c: Core, m: Move, z: Zobrist)
    requires Fits(c, m) && z.Valid()
    ensures var x, x' := PieceOn(c.pieces, m.from), Lands(c.pieces, m, c.side);
            Toggle(Toggle(MakeSpecialKey(m.flags, m.to, c.side, z), z.Key(x', m.from)), z.Key(x', m.to)) ==
            Toggle(Toggle(z.Key(x, m.from), z.Key(x, m.to)), UndoSpecialKey(m.flags, m.from, m.to, c.side, z))
  {
    var x := PieceOn(c.pieces, m.from);
    if m.flags.promotion {
      var nw := PromotedPiece(m.flags, c.side);
      Balance(z.Key(x, m.from), z.Key(x, m.to), z.Key(nw, m.from), z.Key(nw, m.to));
    } else {
      SpecialKeysAgree(m.flags, m.from, m.to, c.side, z);
      Rotate(z.Key(x, m.from), z.Key(x, m.to), MakeSpecialKey(m.flags, m.to, c.side, z));
    }
  }

  /**
   * position_undoMove inverts position_makeMove: for every move that fits
   * the position, undo-move accepts the move record make-move returns and
   * gives back the position exactly, hash included.
   */
  lemma MakeUndoInverse(c: Core, m: Move, z: Zobrist)
    requires Fits(c, m) && z.Valid()
    ensures Undoable(Make(c, m, z).0, Make(c, m, z).1)
    ensures Undo(Make(c, m, z).0, Make(c, m, z).1, z) == c
  {
    var c', m' := Make(c, m, z).0, Make(c, m, z).1;
    var x, x' := PieceOn(c.pieces, m.from), Lands(c.pieces, m, c.side);
    MakeRecord(c, m, z);
    MakePieces(c, m, z);
    MakeFields(c, m, z);
    MakeHash(c, m, z);
    BoardsRestored(c, m, m');
    assert Undoable(c', m');
    UndoPieces(c', m', z);
    UndoFields(c', m', z);
    UndoHash(c', m', z);
    assert 1 - c'.side == c.side;
    CaptureKeysAgree(m.flags, m.to, PieceOn(c.pieces, m.to), z);
    MoverKeysAgree(c, m, z);
    Journal(c.hash, z.Key(x, m.from), z.Key(x, m.to), EpHash(c.enpassant, z),
            MakeCaptureKey(m.flags, m.to, PieceOn(c.pieces, m.to), z),
            z.CastlingKey(c.castling), z.CastlingKey(c'.castling),
            MakeSpecialKey(m.flags, m.to, c.side, z), EpHash(c'.enpassant, z), z.side,
            z.Key(x', m.from), z.Key(x', m.to), UndoSpecialKey(m.flags, m.from, m.to, c.side, z));
    var u := Undo(c', m', z);
    assert u.pieces == c.pieces && u.hash == c.hash;
  }
}
