/**
 * position_makeMove and position_undoMove (src/position.c) as functions on
 * the part of the position they change: the twelve piece boards, the side
 * to move, the en-passant square, the castling rights and the Zobrist hash.
 *
 * The Zobrist keys are a parameter: nothing here depends on their values,
 * and the inverse theorem holds for every choice of keys because each key
 * that make-move XORs into the hash, undo-move XORs out again.
 */
module MakeMove {
  import opened Bits
  import opened Wrappers
  import opened Pieces
  import opened Moves

  /** The random keys of the hash: one per piece and square, the side key, one per castling-rights value, one per en-passant square. */
  datatype Zobrist = Zobrist(piecesquare: seq<seq<bv64>>, side: bv64, castling: seq<bv64>, ep: seq<bv64>)
  {
    predicate Valid() {
      |piecesquare| == 12 && (forall x :: 0 <= x < 12 ==> |piecesquare[x]| == 64) &&
      |castling| == 16 && |ep| == 64
    }

    function Key(x: int, s: Square): bv64
      requires Valid() && IsPiece(x)
    {
      piecesquare[x][s]
    }

    function CastlingKey(rights: bv4): bv64
      requires Valid()
    {
      castling[rights]
    }

    function EpKey(s: Square): bv64
      requires Valid()
    {
      ep[s]
    }
  }

  /** `hash ^= key`: every change to the Zobrist hash toggles one key. */
  function Toggle(hash: bv64, key: bv64): bv64 {
    hash ^ key
  }

  /** The castling-rights bits. */
  const W_CASTLE_K: bv4 := 1
  const W_CASTLE_Q: bv4 := 2
  const B_CASTLE_K: bv4 := 4
  const B_CASTLE_Q: bv4 := 8

  /** The state that make-move and undo-move change. */
  datatype Core = Core(pieces: seq<Bitboard>, side: int, enpassant: Option<Square>, castling: bv4, hash: bv64)
  {
    predicate WellFormed() {
      |pieces| == 12 && IsSide(side)
    }
  }

  /** No square holds two pieces. */
  predicate PiecesDisjoint(pieces: seq<Bitboard>)
    requires |pieces| == 12
  {
    forall x, y :: 0 <= x < y < 12 ==> Disjoint(pieces[x], pieces[y])
  }

  /** The order in which make-move and undo-move scan the piece boards. */
  const SCAN: seq<int> := [P, K, Q, N, B, R, p, k, q, n, b, r]

  /** The last piece in scan order, among the first `i`, whose board holds `s`; NONE_PIECE if none does. */
  function LastOn(pieces: seq<Bitboard>, s: Square, i: nat): (x: int)
    requires |pieces| == 12 && i <= 12
    ensures x == NONE_PIECE || IsPiece(x)
  {
    if i == 0 then NONE_PIECE
    else if Has(pieces[SCAN[i - 1]], s) then SCAN[i - 1]
    else LastOn(pieces, s, i - 1)
  }

  /** The first piece in scan order, from position `i` on, whose board holds `s`; NONE_PIECE if none does. */
  function FirstOn(pieces: seq<Bitboard>, s: Square, i: nat): (x: int)
    requires |pieces| == 12 && i <= 12
    ensures x == NONE_PIECE || IsPiece(x)
    decreases 12 - i
  {
    if i == 12 then NONE_PIECE
    else if Has(pieces[SCAN[i]], s) then SCAN[i]
    else FirstOn(pieces, s, i + 1)
  }

  /** The piece standing on `s`, as make-move's scan finds it. */
  function PieceOn(pieces: seq<Bitboard>, s: Square): int
    requires |pieces| == 12
  {
    LastOn(pieces, s, 12)
  }

  /** POS_DEL_PIECE on the boards: toggle the square on the piece's board. */
  function Del(ps: seq<Bitboard>, x: int, s: Square): (r: seq<Bitboard>)
    requires |ps| == 12 && IsPiece(x)
    ensures |r| == 12
  {
    ps[x := Flip(ps[x], Sq64(s))]
  }

  /** POS_ADD_PIECE on the boards: set the square on the piece's board. */
  function Add(ps: seq<Bitboard>, x: int, s: Square): (r: seq<Bitboard>)
    requires |ps| == 12 && IsPiece(x)
    ensures |r| == 12
  {
    ps[x := Put(ps[x], Sq64(s))]
  }

  /** POS_MOVE_PIECE on the boards. */
  function Shift(ps: seq<Bitboard>, x: int, s: Square, t: Square): (r: seq<Bitboard>)
    requires |ps| == 12 && IsPiece(x)
    ensures |r| == 12
  {
    Add(Del(ps, x, s), x, t)
  }

  /** The boards after a piece is moved in one instruction: both squares toggled on its board. */
  function Moved(ps: seq<Bitboard>, x: int, from: Square, to: Square): (r: seq<Bitboard>)
    requires |ps| == 12 && IsPiece(x)
    ensures |r| == 12
  {
    ps[x := Swap(ps[x], Sq64(from), Sq64(to))]
  }

  /** The boards after undo-move moves a piece back: its board XORed with the union of both squares. */
  function Unmoved(ps: seq<Bitboard>, x: int, from: Square, to: Square): (r: seq<Bitboard>)
    requires |ps| == 12 && IsPiece(x)
    ensures |r| == 12
  {
    ps[x := Unswap(ps[x], Sq64(from), Sq64(to))]
  }

  /** The two keys of a piece moved between two squares, toggled together. */
  function PairKey(x: int, s: Square, t: Square, z: Zobrist): bv64
    requires z.Valid() && IsPiece(x)
  {
    Toggle(z.Key(x, s), z.Key(x, t))
  }

  /** The castling rights left after a piece leaves or lands on `s` (the switches of make-move). */
  function ClearRights(rights: bv4, s: Square): bv4 {
    if s == H1 then rights & !W_CASTLE_K
    else if s == E1 then rights & !(W_CASTLE_K | W_CASTLE_Q)
    else if s == A1 then rights & !W_CASTLE_Q
    else if s == H8 then rights & !B_CASTLE_K
    else if s == E8 then rights & !(B_CASTLE_K | B_CASTLE_Q)
    else if s == A8 then rights & !B_CASTLE_Q
    else rights
  }

  /** The square between the two squares of a pawn double push: (from + to) / 2. */
  function Midpoint(from: Square, to: Square): Square {
    ((from as bv7 + to as bv7) / 2) as Square
  }

  /**
   * What make-move needs to stay inside the piece tables: a piece stands on
   * the origin, and an ordinary capture finds a piece on the destination.
   */
  predicate Playable(c: Core, m: Move) {
    c.WellFormed() && IsPiece(PieceOn(c.pieces, m.from)) &&
    (m.flags.capture && !m.flags.enpassant ==> IsPiece(PieceOn(c.pieces, m.to)))
  }

  /** The requirements the engine's own moves meet, under which make-move is defined and undo-move inverts it. */
  predicate Fits(c: Core, m: Move) {
    Playable(c, m) && PiecesDisjoint(c.pieces) && m.from != m.to &&
    var mover := PieceOn(c.pieces, m.from);
    var target := PieceOn(c.pieces, m.to);
    IsPiece(mover) && ColorOf(mover) == c.side &&
    (IsPiece(target) ==> ColorOf(target) != c.side && m.flags.capture && !m.flags.enpassant) &&
    (m.flags.capture && !m.flags.enpassant ==> IsPiece(target)) &&
    (m.flags.capture && m.flags.enpassant ==> EnPassantFits(c, m)) &&
    (m.flags.promotion ==> mover == P + c.side && PromotionKind(m.flags) && !(m.flags.capture && m.flags.enpassant)) &&
    (!m.flags.promotion && m.flags.castle ==> mover == K + c.side && !m.flags.capture && CastleFits(c, m))
  }

  /** An en-passant capture lands on the sixth (white) or third (black) rank behind an enemy pawn. */
  predicate EnPassantFits(c: Core, m: Move)
    requires c.WellFormed()
  {
    (c.side == WHITE ==> Has(RANK6, m.to) && PieceOn(c.pieces, m.to - 8) == p) &&
    (c.side == BLACK ==> Has(RANK3, m.to) && PieceOn(c.pieces, m.to + 8) == P)
  }

  /** A promotion names at least one piece kind. */
  predicate PromotionKind(f: MoveFlags) {
    f.promoQueen || f.promoBishop || f.promoKnight || f.promoRook
  }

  /** The rook of a castling move stands on its corner and its destination is empty. */
  predicate CastleFits(c: Core, m: Move)
    requires c.WellFormed()
  {
    (m.to == G1 ==> PieceOn(c.pieces, H1) == R && PieceOn(c.pieces, F1) == NONE_PIECE) &&
    (m.to == C1 ==> PieceOn(c.pieces, A1) == R && PieceOn(c.pieces, D1) == NONE_PIECE) &&
    (m.to == G8 ==> PieceOn(c.pieces, H8) == r && PieceOn(c.pieces, F8) == NONE_PIECE) &&
    (m.to == C8 ==> PieceOn(c.pieces, A8) == r && PieceOn(c.pieces, D8) == NONE_PIECE)
  }

  /** The piece a promotion places, by the flag chain of make-move. */
  function PromotedPiece(f: MoveFlags, side: int): (x: int)
    requires IsSide(side)
    ensures PromotionKind(f) ==> IsPiece(x) && ColorOf(x) == side
  {
    if f.promoQueen then Q + side
    else if f.promoBishop then B + side
    else if f.promoKnight then N + side
    else if f.promoRook then R + side
    else NONE_PIECE
  }

  /**
   * position_makeMove: the new core state, and the move with its captured
   * piece, previous en-passant square and previous castling rights filled in.
   * Each stage below changes the fields the corresponding block of
   * position_makeMove changes; a block that changes nothing toggles the key 0.
   */
  function Make(c: Core, m: Move, z: Zobrist): (Core, Move)
    requires Playable(c, m) && z.Valid()
  {
    var mover := PieceOn(c.pieces, m.from);
    var captured := PieceOn(c.pieces, m.to);
    var m1 := m.(captured := captured, ep := c.enpassant, castlingRights := c.castling);
    var c1 := Relocate(c, mover, m.from, m.to, z);
    var c2 := DropEnPassant(c1, z);
    var c3 := MakeCapture(c2, m, captured, z);
    var c4 := LoseRights(c3, m, z);
    var c5 := MakeSpecial(c4, m, z);
    var c6 := MarkEnPassant(c5, m, z);
    (SwitchSide(c6, z), m1)
  }

  /** Move a piece in one instruction: toggle both squares on its board and both keys in the hash. */
  function Relocate(c: Core, x: int, from: Square, to: Square, z: Zobrist): Core
    requires c.WellFormed() && z.Valid() && IsPiece(x)
  {
    c.(pieces := Moved(c.pieces, x, from, to),
       hash := Toggle(Toggle(c.hash, z.Key(x, from)), z.Key(x, to)))
  }

  /** The hash key of an optional en-passant square; no key when there is none. */
  function EpHash(e: Option<Square>, z: Zobrist): bv64
    requires z.Valid()
  {
    if e.Some? then z.EpKey(e.value) else 0
  }

  /** Drop the en-passant square and its key. */
  function DropEnPassant(c: Core, z: Zobrist): Core
    requires z.Valid()
  {
    c.(hash := Toggle(c.hash, EpHash(c.enpassant, z)), enpassant := None)
  }

  /** Leaving or landing on a king or rook home square clears castling rights; the hash swaps the rights keys. */
  function LoseRights(c: Core, m: Move, z: Zobrist): Core
    requires z.Valid()
  {
    var rights := ClearRights(ClearRights(c.castling, m.from), m.to);
    c.(castling := rights, hash := Toggle(Toggle(c.hash, z.CastlingKey(c.castling)), z.CastlingKey(rights)))
  }

  /** Switch the side to move and toggle its key. */
  function SwitchSide(c: Core, z: Zobrist): Core {
    c.(side := 1 - c.side, hash := Toggle(c.hash, z.side))
  }

  /** The capture step of make-move: the captured piece leaves the boards and its key the hash. */
  function MakeCapture(c: Core, m: Move, captured: int, z: Zobrist): Core
    requires c.WellFormed() && z.Valid()
    requires m.flags.capture && !m.flags.enpassant ==> IsPiece(captured)
  {
    c.(pieces := CaptureBoards(c.pieces, m.flags, m.to, captured),
       hash := Toggle(c.hash, MakeCaptureKey(m.flags, m.to, captured, z)))
  }

  /** The boards after the capture step: an en-passant capture removes the pawn behind the destination, by its rank. */
  function CaptureBoards(ps: seq<Bitboard>, f: MoveFlags, to: Square, captured: int): (r: seq<Bitboard>)
    requires |ps| == 12
    requires f.capture && !f.enpassant ==> IsPiece(captured)
    ensures |r| == 12
  {
    if !f.capture then ps
    else if f.enpassant then
      var ps' := if Has(RANK6, to) then Del(ps, p, to - 8) else ps;
      if Has(RANK3, to) then Del(ps', P, to + 8) else ps'
    else Del(ps, captured, to)
  }

  /** The keys the capture step of make-move toggles. */
  function MakeCaptureKey(f: MoveFlags, to: Square, captured: int, z: Zobrist): bv64
    requires z.Valid()
    requires f.capture && !f.enpassant ==> IsPiece(captured)
  {
    if !f.capture then 0
    else if f.enpassant then
      Toggle(if Has(RANK6, to) then z.Key(p, to - 8) else 0, if Has(RANK3, to) then z.Key(P, to + 8) else 0)
    else z.Key(captured, to)
  }

  /** The promotion or castling step of make-move: the boards and the keys it changes. */
  function MakeSpecial(c: Core, m: Move, z: Zobrist): Core
    requires c.WellFormed() && z.Valid()
  {
    c.(pieces := SpecialBoards(c.pieces, m.flags, m.to, c.side),
       hash := Toggle(c.hash, MakeSpecialKey(m.flags, m.to, c.side, z)))
  }

  /** A promotion: the pawn leaves the destination and the chosen piece (queen first) takes its place; a castling moves the rook. */
  function SpecialBoards(ps: seq<Bitboard>, f: MoveFlags, to: Square, side: int): (r: seq<Bitboard>)
    requires |ps| == 12 && IsSide(side)
    ensures |r| == 12
  {
    if f.promotion then
      var ps' := Del(ps, P + side, to);
      if PromotionKind(f) then Add(ps', PromotedPiece(f, side), to) else ps'
    else if f.castle then RookBoards(ps, to)
    else ps
  }

  /** The rook move of a castling, chosen by the king's destination. */
  function RookBoards(ps: seq<Bitboard>, to: Square): (r: seq<Bitboard>)
    requires |ps| == 12
    ensures |r| == 12
  {
    if to == G1 then Shift(ps, R, H1, F1)
    else if to == C1 then Shift(ps, R, A1, D1)
    else if to == G8 then Shift(ps, r, H8, F8)
    else if to == C8 then Shift(ps, r, A8, D8)
    else ps
  }

  /** The keys a promotion toggles at the destination: the pawn's and the promoted piece's. */
  function PromotionKey(f: MoveFlags, to: Square, side: int, z: Zobrist): bv64
    requires z.Valid() && IsSide(side)
  {
    Toggle(z.Key(P + side, to), if PromotionKind(f) then z.Key(PromotedPiece(f, side), to) else 0)
  }

  /** The keys of the rook a castling move shifts. */
  function RookKey(to: Square, z: Zobrist): bv64
    requires z.Valid()
  {
    if to == G1 then PairKey(R, H1, F1, z)
    else if to == C1 then PairKey(R, A1, D1, z)
    else if to == G8 then PairKey(r, H8, F8, z)
    else if to == C8 then PairKey(r, A8, D8, z)
    else 0
  }

  /** The piece keys of the promotion or castling step of make-move. */
  function MakeSpecialKey(f: MoveFlags, to: Square, side: int, z: Zobrist): bv64
    requires z.Valid() && IsSide(side)
  {
    if f.promotion then PromotionKey(f, to, side, z)
    else if f.castle then RookKey(to, z)
    else 0
  }

  /** After a double push (neither promotion nor castling), the square passed over becomes the en-passant square if an enemy pawn stands beside the destination. */
  function MarkEnPassant(c: Core, m: Move, z: Zobrist): Core
    requires c.WellFormed() && z.Valid()
  {
    var e := NewEnPassant(c.pieces, c.side, m);
    c.(enpassant := if e.Some? then e else c.enpassant, hash := Toggle(c.hash, EpHash(e, z)))
  }

  /** The en-passant square a move opens, if any. */
  function NewEnPassant(ps: seq<Bitboard>, side: int, m: Move): Option<Square>
    requires |ps| == 12 && IsSide(side)
  {
    if !m.flags.promotion && !m.flags.castle && m.flags.pawnDouble &&
       !Disjoint(Put(WestOne(Sq64(m.to)), EastOne(Sq64(m.to))), ps[P + (1 - side)])
    then Some(Midpoint(m.from, m.to))
    else None
  }

  /** What undo-move needs of the state it is applied to: the moved piece stands on the move's destination. */
  predicate Undoable(c: Core, m: Move) {
    c.WellFormed() && IsPiece(FirstOn(c.pieces, m.to, 0)) &&
    (m.flags.capture && !m.flags.enpassant ==> IsPiece(m.captured))
  }

  /** position_undoMove */
  function Undo(c: Core, m: Move, z: Zobrist): Core
    requires Undoable(c, m) && z.Valid()
  {
    var c1 := SwitchSide(c, z);
    var mover := FirstOn(c1.pieces, m.to, 0);
    var c2 := MoveBack(c1, mover, m.from, m.to, z);
    var c3 := RestoreEnPassant(c2, m.ep, z);
    var c4 := UndoCapture(c3, m, z);
    var c5 := UndoSpecial(c4, m, z);
    RestoreRights(c5, m.castlingRights, z)
  }

  /** Move a piece back: XOR its board with the union of both squares. */
  function MoveBack(c: Core, x: int, from: Square, to: Square, z: Zobrist): Core
    requires c.WellFormed() && z.Valid() && IsPiece(x)
  {
    c.(pieces := Unmoved(c.pieces, x, from, to),
       hash := Toggle(Toggle(c.hash, z.Key(x, from)), z.Key(x, to)))
  }

  /** Replace the en-passant square by the one saved in the move, swapping keys. */
  function RestoreEnPassant(c: Core, e: Option<Square>, z: Zobrist): Core
    requires z.Valid()
  {
    c.(hash := Toggle(Toggle(c.hash, EpHash(c.enpassant, z)), EpHash(e, z)), enpassant := e)
  }

  /** Put back the castling rights saved in the move, swapping keys. */
  function RestoreRights(c: Core, rights: bv4, z: Zobrist): Core
    requires z.Valid()
  {
    c.(hash := Toggle(Toggle(c.hash, z.CastlingKey(c.castling)), z.CastlingKey(rights)), castling := rights)
  }

  /** The capture step of undo-move: the captured piece returns. */
  function UndoCapture(c: Core, m: Move, z: Zobrist): Core
    requires c.WellFormed() && z.Valid()
    requires m.flags.capture && !m.flags.enpassant ==> IsPiece(m.captured)
  {
    c.(pieces := UncaptureBoards(c.pieces, m.flags, m.to, m.captured),
       hash := Toggle(c.hash, CaptureKey(m.flags, m.to, m.captured, z)))
  }

  /** The boards after the capture step of undo-move. */
  function UncaptureBoards(ps: seq<Bitboard>, f: MoveFlags, to: Square, captured: int): (r: seq<Bitboard>)
    requires |ps| == 12
    requires f.capture && !f.enpassant ==> IsPiece(captured)
    ensures |r| == 12
  {
    if !f.capture then ps
    else if f.enpassant then
      if Has(RANK6, to) then Add(ps, p, to - 8)
      else if Has(RANK3, to) then Add(ps, P, to + 8)
      else ps
    else Add(ps, captured, to)
  }

  /** The key of the piece the capture step of undo-move puts back. */
  function CaptureKey(f: MoveFlags, to: Square, captured: int, z: Zobrist): bv64
    requires z.Valid()
    requires f.capture && !f.enpassant ==> IsPiece(captured)
  {
    if !f.capture then 0
    else if f.enpassant then
      if Has(RANK6, to) then z.Key(p, to - 8)
      else if Has(RANK3, to) then z.Key(P, to + 8)
      else 0
    else z.Key(captured, to)
  }

  /** The promotion or castling step of undo-move. */
  function UndoSpecial(c: Core, m: Move, z: Zobrist): Core
    requires c.WellFormed() && z.Valid()
  {
    c.(pieces := UnspecialBoards(c.pieces, m.flags, m.from, m.to, c.side),
       hash := Toggle(c.hash, UndoSpecialKey(m.flags, m.from, m.to, c.side, z)))
  }

  /** Undo a promotion: the promoted piece leaves the origin and a pawn of the side is put back there; undo a castling's rook move. */
  function UnspecialBoards(ps: seq<Bitboard>, f: MoveFlags, from: Square, to: Square, side: int): (r: seq<Bitboard>)
    requires |ps| == 12 && IsSide(side)
    ensures |r| == 12
  {
    if f.promotion then
      var ps' := if PromotionKind(f) then Del(ps, PromotedPiece(f, side), from) else ps;
      Add(ps', P + side, from)
    else if f.castle then RookBackBoards(ps, to)
    else ps
  }

  /** The rook move undone, chosen by the king's destination. */
  function RookBackBoards(ps: seq<Bitboard>, to: Square): (r: seq<Bitboard>)
    requires |ps| == 12
    ensures |r| == 12
  {
    if to == G1 then Shift(ps, R, F1, H1)
    else if to == C1 then Shift(ps, R, D1, A1)
    else if to == G8 then Shift(ps, r, F8, H8)
    else if to == C8 then Shift(ps, r, D8, A8)
    else ps
  }

  /** The keys undo-move toggles at the origin of a promotion: the promoted piece's and the pawn's. */
  function DemotionKey(f: MoveFlags, from: Square, side: int, z: Zobrist): bv64
    requires z.Valid() && IsSide(side)
  {
    Toggle(if PromotionKind(f) then z.Key(PromotedPiece(f, side), from) else 0, z.Key(P + side, from))
  }

  /** The keys of the rook undo-move shifts back. */
  function RookBackKey(to: Square, z: Zobrist): bv64
    requires z.Valid()
  {
    if to == G1 then PairKey(R, F1, H1, z)
    else if to == C1 then PairKey(R, D1, A1, z)
    else if to == G8 then PairKey(r, F8, H8, z)
    else if to == C8 then PairKey(r, D8, A8, z)
    else 0
  }

  /** The piece keys of the promotion or castling step of undo-move. */
  function UndoSpecialKey(f: MoveFlags, from: Square, to: Square, side: int, z: Zobrist): bv64
    requires z.Valid() && IsSide(side)
  {
    if f.promotion then DemotionKey(f, from, side, z)
    else if f.castle then RookBackKey(to, z)
    else 0
  }
}
