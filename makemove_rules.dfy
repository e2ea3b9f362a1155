/**
 * The bookkeeping rules of position_makeMove (src/position.c) on their
 * own: castling rights are only ever lost, each one exactly when a piece
 * leaves or reaches its king's or its rook's home square, and an
 * en-passant square is opened only by a pawn double push that lands beside
 * an enemy pawn, on the square the pawn passed over.
 */
module MakeMoveRules {
  import opened Bits
  import opened Wrappers
  import opened Pieces
  import opened Moves
  import opened MakeMove
  import opened MakeMoveInverse

  /** The four castling rights, one bit each. */
  predicate IsRight(bit: bv4) {
    bit == W_CASTLE_K || bit == W_CASTLE_Q || bit == B_CASTLE_K || bit == B_CASTLE_Q
  }

  /** The home squares of the king and the rook a castling right depends on. */
  function Guards(bit: bv4): set<Square> {
    if bit == W_CASTLE_K then {E1, H1}
    else if bit == W_CASTLE_Q then {E1, A1}
    else if bit == B_CASTLE_K then {E8, H8}
    else {E8, A8}
  }

  /** A right survives a square being touched exactly when it held before and the square is not one of its guards. */
  lemma ClearRightsMeaning(rights: bv4, s: Square, bit: bv4)
    requires IsRight(bit)
    ensures ClearRights(rights, s) & bit != 0 <==> rights & bit != 0 && s !in Guards(bit)
  {
  }

  /** No right is ever added. */
  lemma ClearRightsOnlyClears(rights: bv4, s: Square)
    ensures ClearRights(rights, s) & !rights == 0
  {
  }

  /** After make-move, each right is held exactly when it was held before and the move neither left nor reached one of its guards. */
  lemma MakeRights(c: Core, m: Move, z: Zobrist, bit: bv4)
    requires Playable(c, m) && z.Valid() && IsRight(bit)
    ensures Make(c, m, z).0.castling & bit != 0 <==>
      c.castling & bit != 0 && m.from !in Guards(bit) && m.to !in Guards(bit)
  {
    MakeFields(c, m, z);
    ClearRightsMeaning(c.castling, m.from, bit);
    ClearRightsMeaning(ClearRights(c.castling, m.from), m.to, bit);
  }

  /** Make-move never grants a right. */
  lemma MakeOnlyClearsRights(c: Core, m: Move, z: Zobrist)
    requires Playable(c, m) && z.Valid()
    ensures Make(c, m, z).0.castling & !c.castling == 0
  {
    MakeFields(c, m, z);
    ClearRightsOnlyClears(c.castling, m.from);
    ClearRightsOnlyClears(ClearRights(c.castling, m.from), m.to);
    Within4(Make(c, m, z).0.castling, ClearRights(c.castling, m.from), c.castling);
  }

  lemma Within4(a: bv4, b: bv4, c: bv4)
    requires a & !b == 0 && b & !c == 0
    ensures a & !c == 0
  {
  }

  /** A white double push from `from` passes over the square in front of it. */
  lemma MidpointUp(from: Square, to: Square)
    requires from < 48 && to == from + 16
    ensures Midpoint(from, to) == from + 8
  {
  }

  /** A black double push to `to` passes over the square behind it. */
  lemma MidpointDown(from: Square, to: Square)
    requires to < 48 && from == to + 16
    ensures Midpoint(from, to) == to + 8
  {
  }

  /** An enemy pawn of `side` stands just west or east of `to` on the same rank. */
  predicate EnemyPawnBeside(ps: seq<Bitboard>, side: int, to: Square)
    requires |ps| == 12 && IsSide(side)
  {
    (FileOf(to) > 0 && Has(ps[P + (1 - side)], to - 1)) || (FileOf(to) < 7 && Has(ps[P + (1 - side)], to + 1))
  }

  /** A move opens an en-passant square exactly when it is a plain pawn double push landing beside an enemy pawn, and the square is the one passed over. */
  lemma NewEnPassantMeaning(ps: seq<Bitboard>, side: int, m: Move)
    requires |ps| == 12 && IsSide(side)
    ensures NewEnPassant(ps, side, m).Some? <==>
      !m.flags.promotion && !m.flags.castle && m.flags.pawnDouble && EnemyPawnBeside(ps, side, m.to)
    ensures NewEnPassant(ps, side, m).Some? ==> NewEnPassant(ps, side, m).value == Midpoint(m.from, m.to)
  {
    var theirs := ps[P + (1 - side)];
    WestOneSq(m.to);
    EastOneSq(m.to);
    DisjointPut(WestOne(Sq64(m.to)), EastOne(Sq64(m.to)), theirs);
    if FileOf(m.to) > 0 {
      DisjointSq64(m.to - 1, theirs);
    }
    if FileOf(m.to) < 7 {
      DisjointSq64(m.to + 1, theirs);
    }
  }
}
