/**
 * The read-only machinery of src/position.c, as functions of a snapshot of
 * the global position: the refresh of the side and occupancy boards, the
 * attack sets of genAttacks, position_getAttackersTo, position_attacksFrom,
 * squareAttacked, position_inCheck, canMove, canTakeEp and the pin scan of
 * genPinned.  The class in module Positions updates its fields to these
 * values; the lemmas here say what the values mean on the board.
 *
 * The table lookups of src/bitboard.c (getKingMoves, getDiagNE, ...) appear
 * here as the mask functions the tables hold (class Tables proves each
 * lookup equal to its mask function), and Rmagic/Bmagic as the slider
 * attack functions of module Sliders.
 */
module PositionSpec {
  import opened Wrappers
  import opened Bits
  import opened Pieces
  import opened Masks
  import opened Sliders
  import opened Scan
  import opened MakeMove

  /** A snapshot of the fields of the engine's `Position` record. */
  datatype View = View(
    pieces: seq<Bitboard>,
    bySide: seq<Bitboard>,
    occupied: Bitboard,
    empty: Bitboard,
    pinned: Bitboard,
    pinner: seq<Bitboard>,
    inCheck: bool,
    checkmated: bool,
    enpassant: Option<Square>,
    castling: bv4,
    side: int,
    hash: bv64,
    kingAttacks: seq<Bitboard>,
    knightsAttacks: seq<Bitboard>,
    queenBishopsAttacks: seq<Bitboard>,
    queenRooksAttacks: seq<Bitboard>,
    pawnAttacks: seq<Bitboard>)
  {
    /** The array sizes of the record: 12 piece boards, 2 side boards, 64 pinner entries, 2 of each attack set. */
    predicate Shaped() {
      |pieces| == 12 && |bySide| == 2 && |pinner| == 64 && IsSide(side) &&
      |kingAttacks| == 2 && |knightsAttacks| == 2 && |queenBishopsAttacks| == 2 &&
      |queenRooksAttacks| == 2 && |pawnAttacks| == 2
    }
  }

  /** OTHER_SIDE: `1 ^ side`. */
  function Other(side: int): (o: int)
    requires IsSide(side)
    ensures IsSide(o) && o != side
  {
    1 - side
  }

  /* ---------------------------------------------------------------- */
  /* The macros of position.c                                         */
  /* ---------------------------------------------------------------- */

  function OurKing(v: View): Bitboard requires v.Shaped() { v.pieces[K + v.side] }
  function OtherKing(v: View): Bitboard requires v.Shaped() { v.pieces[K + Other(v.side)] }
  function OurPawns(v: View): Bitboard requires v.Shaped() { v.pieces[P + v.side] }
  function OurPieces(v: View): Bitboard requires v.Shaped() { v.bySide[v.side] }
  function OtherPieces(v: View): Bitboard requires v.Shaped() { v.bySide[Other(v.side)] }

  function OtherQueenRooks(v: View): Bitboard requires v.Shaped() {
    Join(v.pieces[R + Other(v.side)], v.pieces[Q + Other(v.side)])
  }

  function OtherQueenBishops(v: View): Bitboard requires v.Shaped() {
    Join(v.pieces[B + Other(v.side)], v.pieces[Q + Other(v.side)])
  }

  function QueenRooks(ps: seq<Bitboard>): Bitboard requires |ps| == 12 { Join(Join(Join(ps[Q], ps[q]), ps[R]), ps[r]) }
  function QueenBishops(ps: seq<Bitboard>): Bitboard requires |ps| == 12 { Join(Join(Join(ps[Q], ps[q]), ps[B]), ps[b]) }
  function Knights(ps: seq<Bitboard>): Bitboard requires |ps| == 12 { Join(ps[n], ps[N]) }
  function Kings(ps: seq<Bitboard>): Bitboard requires |ps| == 12 { Join(ps[k], ps[K]) }

  lemma QueenRooksHas(ps: seq<Bitboard>, t: Square)
    requires |ps| == 12
    ensures Has(QueenRooks(ps), t) <==> Has(ps[Q], t) || Has(ps[q], t) || Has(ps[R], t) || Has(ps[r], t)
  {
    JoinHas(ps[Q], ps[q], t);
    JoinHas(Join(ps[Q], ps[q]), ps[R], t);
    JoinHas(Join(Join(ps[Q], ps[q]), ps[R]), ps[r], t);
  }

  lemma QueenBishopsHas(ps: seq<Bitboard>, t: Square)
    requires |ps| == 12
    ensures Has(QueenBishops(ps), t) <==> Has(ps[Q], t) || Has(ps[q], t) || Has(ps[B], t) || Has(ps[b], t)
  {
    JoinHas(ps[Q], ps[q], t);
    JoinHas(Join(ps[Q], ps[q]), ps[B], t);
    JoinHas(Join(Join(ps[Q], ps[q]), ps[B]), ps[b], t);
  }

  /* ---------------------------------------------------------------- */
  /* position_refresh                                                 */
  /* ---------------------------------------------------------------- */

  /** bb_side[c]: the union of the six boards of side `c`. */
  function SideBoard(ps: seq<Bitboard>, c: int): Bitboard
    requires |ps| == 12 && IsSide(c)
  {
    Union(SideList(ps, c))
  }

  /** The six boards of side `c`, in the order position_refresh ORs them. */
  function SideList(ps: seq<Bitboard>, c: int): (r: seq<Bitboard>)
    requires |ps| == 12 && IsSide(c)
    ensures |r| == 6 && forall i :: 0 <= i < 6 ==> r[i] == ps[2 * i + c]
  {
    [ps[P + c], ps[K + c], ps[Q + c], ps[N + c], ps[B + c], ps[R + c]]
  }

  /** The OR of a list of boards, left to right. */
  function Union(bs: seq<Bitboard>): Bitboard
  {
    if |bs| == 0 then EMPTY else Join(Union(bs[..|bs| - 1]), bs[|bs| - 1])
  }

  lemma {:induction false} UnionHas(bs: seq<Bitboard>, t: Square)
    ensures Has(Union(bs), t) <==> exists i :: 0 <= i < |bs| && Has(bs[i], t)
  {
    if |bs| == 0 {
      EmptyHas(t);
    } else {
      var front := bs[..|bs| - 1];
      UnionHas(front, t);
      JoinHas(Union(front), bs[|bs| - 1], t);
      if exists i :: 0 <= i < |bs| && Has(bs[i], t) {
        var i :| 0 <= i < |bs| && Has(bs[i], t);
        if i < |bs| - 1 {
          assert front[i] == bs[i];
        }
      }
    }
  }

  /** `~occupied`: the empty squares. */
  function Complement(a: Bitboard): Bitboard {
    !a
  }

  lemma ComplementHas(a: Bitboard, t: Square)
    ensures Has(Complement(a), t) <==> !Has(a, t)
  {
    NotHas(a, t);
  }

  /** The zeroed pinner array. */
  function NoPinners(): (r: seq<Bitboard>)
    ensures |r| == 64
  {
    seq(64, i => EMPTY)
  }

  const NO_ATTACKS: seq<Bitboard> := [EMPTY, EMPTY]

  /** The record after position_refresh. */
  function Refreshed(v: View): (r: View)
    requires v.Shaped()
    ensures r.Shaped()
  {
    var white := SideBoard(v.pieces, WHITE);
    var black := SideBoard(v.pieces, BLACK);
    v.(pinner := NoPinners(),
       kingAttacks := NO_ATTACKS, knightsAttacks := NO_ATTACKS, queenBishopsAttacks := NO_ATTACKS,
       queenRooksAttacks := NO_ATTACKS, pawnAttacks := NO_ATTACKS,
       pinned := EMPTY, inCheck := false, checkmated := false,
       bySide := [white, black], occupied := Join(white, black), empty := Complement(Join(white, black)))
  }

  /** The side and occupancy boards agree with the piece boards, as position_refresh leaves them. */
  predicate Consistent(v: View)
    requires v.Shaped()
  {
    v.bySide[WHITE] == SideBoard(v.pieces, WHITE) && v.bySide[BLACK] == SideBoard(v.pieces, BLACK) &&
    v.occupied == Join(v.bySide[WHITE], v.bySide[BLACK]) && v.empty == Complement(v.occupied)
  }

  /** Some piece of side `c` stands on `t`. */
  ghost predicate Owns(ps: seq<Bitboard>, c: int, t: Square)
    requires |ps| == 12
  {
    exists x :: IsPiece(x) && ColorOf(x) == c && Has(ps[x], t)
  }

  /** The refresh makes the side boards, the occupancy and the empty squares what their names say. */
  lemma RefreshedMeaning(v: View, t: Square)
    requires v.Shaped()
    ensures Has(Refreshed(v).bySide[WHITE], t) <==> Owns(v.pieces, WHITE, t)
    ensures Has(Refreshed(v).bySide[BLACK], t) <==> Owns(v.pieces, BLACK, t)
    ensures Has(Refreshed(v).occupied, t) <==> Owns(v.pieces, WHITE, t) || Owns(v.pieces, BLACK, t)
    ensures Has(Refreshed(v).empty, t) <==> !Owns(v.pieces, WHITE, t) && !Owns(v.pieces, BLACK, t)
  {
    var white, black := SideBoard(v.pieces, WHITE), SideBoard(v.pieces, BLACK);
    SideBoardHas(v.pieces, WHITE, t);
    SideBoardHas(v.pieces, BLACK, t);
    OccupancyHas(white, black, t);
  }

  /** The occupancy is the union of the two side boards and the empty squares its complement. */
  lemma OccupancyHas(white: Bitboard, black: Bitboard, t: Square)
    ensures Has(Join(white, black), t) <==> Has(white, t) || Has(black, t)
    ensures Has(Complement(Join(white, black)), t) <==> !Has(white, t) && !Has(black, t)
  {
    JoinHas(white, black, t);
    ComplementHas(Join(white, black), t);
  }

  /** The refresh leaves a consistent record with empty attack sets, no pins and no check, and keeps the rest. */
  lemma RefreshedClears(v: View)
    requires v.Shaped()
    ensures Consistent(Refreshed(v)) && Fresh(Refreshed(v))
    ensures Refreshed(v).pieces == v.pieces && Refreshed(v).hash == v.hash && Refreshed(v).side == v.side
    ensures Refreshed(v).castling == v.castling && Refreshed(v).enpassant == v.enpassant
    ensures Refreshed(v).pinned == EMPTY && !Refreshed(v).inCheck && !Refreshed(v).checkmated
    ensures forall s: Square :: Refreshed(v).pinner[s] == EMPTY
  {
  }

  lemma SideBoardHas(ps: seq<Bitboard>, c: int, t: Square)
    requires |ps| == 12 && IsSide(c)
    ensures Has(SideBoard(ps, c), t) <==> Owns(ps, c, t)
  {
    var bs := SideList(ps, c);
    UnionHas(bs, t);
    if Owns(ps, c, t) {
      OwnsListed(ps, c, bs, t);
    }
    if exists i :: 0 <= i < |bs| && Has(bs[i], t) {
      ListedOwns(ps, c, bs, t);
    }
  }

  lemma OwnsListed(ps: seq<Bitboard>, c: int, bs: seq<Bitboard>, t: Square)
    requires |ps| == 12 && IsSide(c) && |bs| == 6 && forall i :: 0 <= i < 6 ==> bs[i] == ps[2 * i + c]
    requires Owns(ps, c, t)
    ensures exists i :: 0 <= i < |bs| && Has(bs[i], t)
  {
    var x :| IsPiece(x) && ColorOf(x) == c && Has(ps[x], t);
    assert bs[x / 2] == ps[x];
  }

  lemma ListedOwns(ps: seq<Bitboard>, c: int, bs: seq<Bitboard>, t: Square)
    requires |ps| == 12 && IsSide(c) && |bs| == 6 && forall i :: 0 <= i < 6 ==> bs[i] == ps[2 * i + c]
    requires exists i :: 0 <= i < |bs| && Has(bs[i], t)
    ensures Owns(ps, c, t)
  {
    var i :| 0 <= i < |bs| && Has(bs[i], t);
    assert IsPiece(2 * i + c) && ColorOf(2 * i + c) == c && bs[i] == ps[2 * i + c];
  }

  /* ---------------------------------------------------------------- */
  /* genAttacks                                                       */
  /* ---------------------------------------------------------------- */

  /** The attack sets are all empty, as position_refresh leaves them. */
  predicate Fresh(v: View)
    requires v.Shaped()
  {
    v.kingAttacks == NO_ATTACKS && v.knightsAttacks == NO_ATTACKS && v.queenBishopsAttacks == NO_ATTACKS &&
    v.queenRooksAttacks == NO_ATTACKS && v.pawnAttacks == NO_ATTACKS
  }

  /** Rmagic on the board `occ`, as a function of the slider's square. */
  function RookFrom(occ: Bitboard): Square -> Bitboard {
    s => RookAttacks(s, occ)
  }

  /** Bmagic on the board `occ`, as a function of the slider's square. */
  function BishopFrom(occ: Bitboard): Square -> Bitboard {
    s => BishopAttacks(s, occ)
  }

  /** kingAttacks[c] = getKingMoves(bb_pieces[K + c]). */
  function KingAttacksOf(ps: seq<Bitboard>, c: int): Bitboard
    requires |ps| == 12 && IsSide(c) && ps[K + c] != 0
  {
    KingMoves(BitScanForward(ps[K + c]))
  }

  /** knightsAttacks[c] |= getKnightMoves(sq) for every knight of side `c`. */
  function KnightsAttacksOf(acc: Bitboard, ps: seq<Bitboard>, c: int): Bitboard
    requires |ps| == 12 && IsSide(c)
  {
    Spread(acc, ps[N + c], KnightMoves)
  }

  /**
   * queenRooksAttacks[c], corrected: Rmagic(sq, occ) ORed in for every queen,
   * then every rook, of side `c`.  genAttacks as written counts only the
   * lowest queen (QueenRooksAttacksAsWritten).
   */
  function QueenRooksAttacksOf(acc: Bitboard, ps: seq<Bitboard>, occ: Bitboard, c: int): Bitboard
    requires |ps| == 12 && IsSide(c)
  {
    Spread(Spread(acc, ps[Q + c], RookFrom(occ)), ps[R + c], RookFrom(occ))
  }

  /**
   * queenBishopsAttacks[c], corrected: Bmagic(sq, occ) ORed in for every
   * queen, then every bishop, of side `c`.  genAttacks as written counts only
   * the lowest queen (QueenBishopsAttacksAsWritten).
   */
  function QueenBishopsAttacksOf(acc: Bitboard, ps: seq<Bitboard>, occ: Bitboard, c: int): Bitboard
    requires |ps| == 12 && IsSide(c)
  {
    Spread(Spread(acc, ps[Q + c], BishopFrom(occ)), ps[B + c], BishopFrom(occ))
  }

  /** pawnAttacks[c]: the two forward diagonal shifts of the pawns of side `c`. */
  function PawnAttacksOf(ps: seq<Bitboard>, c: int): Bitboard
    requires |ps| == 12 && IsSide(c)
  {
    if c == WHITE then Join(NoWeOne(ps[P]), NoEaOne(ps[P])) else Join(SoWeOne(ps[p]), SoEaOne(ps[p]))
  }

  /** Both kings are on the board: getKingMoves looks up the square of the lowest bit of each king board. */
  predicate KingsPresent(v: View)
    requires v.Shaped()
  {
    v.pieces[K] != 0 && v.pieces[k] != 0
  }

  lemma OurKingPresent(v: View)
    requires v.Shaped() && KingsPresent(v)
    ensures OurKing(v) != 0 && OtherKing(v) != 0
  {
  }

  /**
   * The record after genAttacks.  King and pawn attacks are assigned; the
   * other sets are ORed into what the record held, which position_refresh
   * leaves empty.  This is genAttacks corrected to count every queen; as
   * written it counts only the lowest queen of each side.
   */
  function Attacked(v: View): (r: View)
    requires v.Shaped() && KingsPresent(v)
    ensures r.Shaped() && r.pieces == v.pieces && r.side == v.side && r.occupied == v.occupied && r.enpassant == v.enpassant
  {
    var ps, occ := v.pieces, v.occupied;
    v.(kingAttacks := [KingAttacksOf(ps, WHITE), KingAttacksOf(ps, BLACK)],
       knightsAttacks := [KnightsAttacksOf(v.knightsAttacks[WHITE], ps, WHITE),
                          KnightsAttacksOf(v.knightsAttacks[BLACK], ps, BLACK)],
       queenRooksAttacks := [QueenRooksAttacksOf(v.queenRooksAttacks[WHITE], ps, occ, WHITE),
                             QueenRooksAttacksOf(v.queenRooksAttacks[BLACK], ps, occ, BLACK)],
       queenBishopsAttacks := [QueenBishopsAttacksOf(v.queenBishopsAttacks[WHITE], ps, occ, WHITE),
                               QueenBishopsAttacksOf(v.queenBishopsAttacks[BLACK], ps, occ, BLACK)],
       pawnAttacks := [PawnAttacksOf(ps, WHITE), PawnAttacksOf(ps, BLACK)])
  }

  /* ---------------------------------------------------------------- */
  /* What a piece attacks                                             */
  /* ---------------------------------------------------------------- */

  /**
   * The squares a piece of kind `x` standing on `s` attacks when the
   * occupied squares are `occ`: a pawn the two squares diagonally ahead of
   * it, a king or a knight its table moves, a rook or a bishop what it sees
   * along its lines, a queen both.
   */
  function PieceAttacks(x: int, s: Square, occ: Bitboard): Bitboard
    requires IsPiece(x)
  {
    if x == P then Join(NoWeOne(Sq64(s)), NoEaOne(Sq64(s)))
    else if x == p then Join(SoWeOne(Sq64(s)), SoEaOne(Sq64(s)))
    else if x == K || x == k then KingMoves(s)
    else if x == N || x == n then KnightMoves(s)
    else if x == R || x == r then RookAttacks(s, occ)
    else if x == B || x == b then BishopAttacks(s, occ)
    else Join(RookAttacks(s, occ), BishopAttacks(s, occ))
  }

  /** The attack board of each kind of piece. */
  lemma PieceAttacksKinds(x: int, s: Square, occ: Bitboard)
    requires IsPiece(x)
    ensures x == K || x == k ==> PieceAttacks(x, s, occ) == KingMoves(s)
    ensures x == N || x == n ==> PieceAttacks(x, s, occ) == KnightMoves(s)
    ensures x == R || x == r ==> PieceAttacks(x, s, occ) == RookAttacks(s, occ)
    ensures x == B || x == b ==> PieceAttacks(x, s, occ) == BishopAttacks(s, occ)
    ensures x == Q || x == q ==> PieceAttacks(x, s, occ) == Join(RookAttacks(s, occ), BishopAttacks(s, occ))
  {
  }

  /** A pawn attacks the two squares one rank ahead of it (upwards for White) and one file aside. */
  lemma PawnAttacksGeometry(c: int, s: Square, occ: Bitboard, t: Square)
    requires IsSide(c)
    ensures Has(PieceAttacks(P + c, s, occ), t) <==>
      (if c == WHITE then RankOf(t) == RankOf(s) + 1 else RankOf(s) == RankOf(t) + 1) &&
      Dist(FileOf(s), FileOf(t)) == 1
  {
    if c == WHITE {
      WhitePawnHas(s, t);
      WhitePawnSquares(s, t);
    } else {
      BlackPawnHas(s, t);
      BlackPawnSquares(s, t);
    }
  }

  lemma WhitePawnHas(s: Square, t: Square)
    ensures Has(Join(NoWeOne(Sq64(s)), NoEaOne(Sq64(s))), t) <==>
      (FileOf(t) != 7 && t >= 7 && s == t - 7) || (FileOf(t) != 0 && t >= 9 && s == t - 9)
  {
    JoinHas(NoWeOne(Sq64(s)), NoEaOne(Sq64(s)), t);
    NoWeOneHas(Sq64(s), t);
    NoEaOneHas(Sq64(s), t);
    Sq64Has(s, t - 7);
    Sq64Has(s, t - 9);
  }

  lemma BlackPawnHas(s: Square, t: Square)
    ensures Has(Join(SoWeOne(Sq64(s)), SoEaOne(Sq64(s))), t) <==>
      (FileOf(t) != 7 && t < 55 && s == t + 9) || (FileOf(t) != 0 && t < 57 && s == t + 7)
  {
    JoinHas(SoWeOne(Sq64(s)), SoEaOne(Sq64(s)), t);
    SoWeOneHas(Sq64(s), t);
    SoEaOneHas(Sq64(s), t);
    Sq64Has(s, t + 7);
    Sq64Has(s, t + 9);
  }

  lemma WhitePawnSquares(s: Square, t: Square)
    ensures (FileOf(t) != 7 && t >= 7 && s == t - 7) || (FileOf(t) != 0 && t >= 9 && s == t - 9) <==>
      RankOf(t) == RankOf(s) + 1 && Dist(FileOf(s), FileOf(t)) == 1
  {
  }

  lemma BlackPawnSquares(s: Square, t: Square)
    ensures (FileOf(t) != 7 && t < 55 && s == t + 9) || (FileOf(t) != 0 && t < 57 && s == t + 7) <==>
      RankOf(s) == RankOf(t) + 1 && Dist(FileOf(s), FileOf(t)) == 1
  {
  }

  /** Some piece of kind `x` attacks `t`. */
  ghost predicate KindHits(ps: seq<Bitboard>, occ: Bitboard, x: int, t: Square)
    requires |ps| == 12 && IsPiece(x)
  {
    Hits(ps[x], AttacksOf(x, occ), t)
  }

  /** PieceAttacks as a function of the square. */
  function AttacksOf(x: int, occ: Bitboard): Square -> Bitboard
    requires IsPiece(x)
  {
    s => PieceAttacks(x, s, occ)
  }

  /** Some piece of side `c` attacks `t`: a pawn, the king, a queen, a knight, a bishop or a rook. */
  ghost predicate AttackedBy(ps: seq<Bitboard>, occ: Bitboard, c: int, t: Square)
    requires |ps| == 12 && IsSide(c)
  {
    KindHits(ps, occ, P + c, t) || KindHits(ps, occ, K + c, t) || KindHits(ps, occ, Q + c, t) ||
    KindHits(ps, occ, N + c, t) || KindHits(ps, occ, B + c, t) || KindHits(ps, occ, R + c, t)
  }

  /** The pawn attack set of genAttacks holds exactly the squares a pawn of that side attacks. */
  lemma PawnAttacksOfHas(ps: seq<Bitboard>, occ: Bitboard, c: int, t: Square)
    requires |ps| == 12 && IsSide(c)
    ensures Has(PawnAttacksOf(ps, c), t) <==> KindHits(ps, occ, P + c, t)
  {
    if c == WHITE {
      WhitePawnsHas(ps, occ, t);
    } else {
      BlackPawnsHas(ps, occ, t);
    }
  }

  lemma WhitePawnsHas(ps: seq<Bitboard>, occ: Bitboard, t: Square)
    requires |ps| == 12
    ensures Has(Join(NoWeOne(ps[P]), NoEaOne(ps[P])), t) <==> KindHits(ps, occ, P, t)
  {
    JoinHas(NoWeOne(ps[P]), NoEaOne(ps[P]), t);
    NoWeOneHas(ps[P], t);
    NoEaOneHas(ps[P], t);
    var f := AttacksOf(P, occ);
    forall s: Square ensures Has(f(s), t) <==> (FileOf(t) != 7 && t >= 7 && s == t - 7) || (FileOf(t) != 0 && t >= 9 && s == t - 9) {
      WhitePawnHas(s, t);
    }
    HitsFrom(ps[P], f, t, t - 7, FileOf(t) != 7 && t >= 7, t - 9, FileOf(t) != 0 && t >= 9);
  }

  lemma BlackPawnsHas(ps: seq<Bitboard>, occ: Bitboard, t: Square)
    requires |ps| == 12
    ensures Has(Join(SoWeOne(ps[p]), SoEaOne(ps[p])), t) <==> KindHits(ps, occ, p, t)
  {
    JoinHas(SoWeOne(ps[p]), SoEaOne(ps[p]), t);
    SoWeOneHas(ps[p], t);
    SoEaOneHas(ps[p], t);
    var f := AttacksOf(p, occ);
    forall s: Square ensures Has(f(s), t) <==> (FileOf(t) != 7 && t < 55 && s == t + 9) || (FileOf(t) != 0 && t < 57 && s == t + 7) {
      BlackPawnHas(s, t);
    }
    HitsFrom(ps[p], f, t, t + 9, FileOf(t) != 7 && t < 55, t + 7, FileOf(t) != 0 && t < 57);
  }

  /** After refresh and genAttacks, the knight set holds exactly the squares a knight of that side attacks. */
  lemma KnightsAttacksHas(ps: seq<Bitboard>, occ: Bitboard, c: int, t: Square)
    requires |ps| == 12 && IsSide(c)
    ensures Has(KnightsAttacksOf(EMPTY, ps, c), t) <==> KindHits(ps, occ, N + c, t)
  {
    SpreadHas(EMPTY, ps[N + c], KnightMoves, t);
    EmptyHas(t);
    var f := AttacksOf(N + c, occ);
    forall s: Square ensures Has(f(s), t) <==> Has(KnightMoves(s), t) {
      PieceAttacksKinds(N + c, s, occ);
    }
    HitsSame(ps[N + c], f, KnightMoves, t);
  }

  /** The king attack set holds exactly the squares the side's only king attacks. */
  lemma KingAttacksHas(ps: seq<Bitboard>, occ: Bitboard, c: int, king: Square, t: Square)
    requires |ps| == 12 && IsSide(c) && ps[K + c] == Sq64(king)
    ensures Has(KingAttacksOf(ps, c), t) <==> KindHits(ps, occ, K + c, t)
  {
    BitScanForwardSq64(king);
    PieceAttacksKinds(K + c, king, occ);
    HitsOnly(ps[K + c], king, AttacksOf(K + c, occ), t);
  }

  /** After refresh and genAttacks, the rook-like set holds the squares a queen or a rook of that side sees along files and ranks. */
  lemma QueenRooksAttacksHas(ps: seq<Bitboard>, occ: Bitboard, c: int, t: Square)
    requires |ps| == 12 && IsSide(c)
    ensures Has(QueenRooksAttacksOf(EMPTY, ps, occ, c), t) <==>
      Hits(ps[Q + c], RookFrom(occ), t) || Hits(ps[R + c], RookFrom(occ), t)
  {
    var f := RookFrom(occ);
    SpreadHas(Spread(EMPTY, ps[Q + c], f), ps[R + c], f, t);
    SpreadHas(EMPTY, ps[Q + c], f, t);
    EmptyHas(t);
  }

  /** After refresh and genAttacks, the bishop-like set holds the squares a queen or a bishop of that side sees along diagonals. */
  lemma QueenBishopsAttacksHas(ps: seq<Bitboard>, occ: Bitboard, c: int, t: Square)
    requires |ps| == 12 && IsSide(c)
    ensures Has(QueenBishopsAttacksOf(EMPTY, ps, occ, c), t) <==>
      Hits(ps[Q + c], BishopFrom(occ), t) || Hits(ps[B + c], BishopFrom(occ), t)
  {
    var f := BishopFrom(occ);
    SpreadHas(Spread(EMPTY, ps[Q + c], f), ps[B + c], f, t);
    SpreadHas(EMPTY, ps[Q + c], f, t);
    EmptyHas(t);
  }

  /** Together the two slider sets hold exactly the squares a queen, rook or bishop of that side attacks. */
  lemma SlidersHas(ps: seq<Bitboard>, occ: Bitboard, c: int, t: Square)
    requires |ps| == 12 && IsSide(c)
    ensures Has(QueenRooksAttacksOf(EMPTY, ps, occ, c), t) || Has(QueenBishopsAttacksOf(EMPTY, ps, occ, c), t) <==>
      KindHits(ps, occ, Q + c, t) || KindHits(ps, occ, R + c, t) || KindHits(ps, occ, B + c, t)
  {
    QueenRooksAttacksHas(ps, occ, c, t);
    QueenBishopsAttacksHas(ps, occ, c, t);
    QueenKindHits(ps, occ, Q + c, t);
    RookKindHits(ps, occ, R + c, t);
    BishopKindHits(ps, occ, B + c, t);
  }

  /** A queen attacks what a rook and what a bishop on its square would. */
  lemma QueenKindHits(ps: seq<Bitboard>, occ: Bitboard, x: int, t: Square)
    requires |ps| == 12 && (x == Q || x == q)
    ensures KindHits(ps, occ, x, t) <==> Hits(ps[x], RookFrom(occ), t) || Hits(ps[x], BishopFrom(occ), t)
  {
    forall s: Square ensures Has(AttacksOf(x, occ)(s), t) <==> Has(RookFrom(occ)(s), t) || Has(BishopFrom(occ)(s), t) {
      PieceAttacksKinds(x, s, occ);
      JoinHas(RookAttacks(s, occ), BishopAttacks(s, occ), t);
    }
    HitsJoin(ps[x], RookFrom(occ), BishopFrom(occ), AttacksOf(x, occ), t);
  }

  lemma RookKindHits(ps: seq<Bitboard>, occ: Bitboard, x: int, t: Square)
    requires |ps| == 12 && (x == R || x == r)
    ensures KindHits(ps, occ, x, t) <==> Hits(ps[x], RookFrom(occ), t)
  {
    forall s: Square ensures Has(AttacksOf(x, occ)(s), t) <==> Has(RookFrom(occ)(s), t) {
      PieceAttacksKinds(x, s, occ);
    }
    HitsSame(ps[x], AttacksOf(x, occ), RookFrom(occ), t);
  }

  lemma BishopKindHits(ps: seq<Bitboard>, occ: Bitboard, x: int, t: Square)
    requires |ps| == 12 && (x == B || x == b)
    ensures KindHits(ps, occ, x, t) <==> Hits(ps[x], BishopFrom(occ), t)
  {
    forall s: Square ensures Has(AttacksOf(x, occ)(s), t) <==> Has(BishopFrom(occ)(s), t) {
      PieceAttacksKinds(x, s, occ);
    }
    HitsSame(ps[x], AttacksOf(x, occ), BishopFrom(occ), t);
  }

  /* ---------------------------------------------------------------- */
  /* squareAttacked and position_inCheck                              */
  /* ---------------------------------------------------------------- */

  /** squareAttacked: one of the five attack sets of the side not to move holds `t`. */
  predicate SquareAttacked(v: View, t: Square)
    requires v.Shaped()
  {
    var o := Other(v.side);
    Has(v.pawnAttacks[o], t) || Has(v.knightsAttacks[o], t) || Has(v.kingAttacks[o], t) ||
    Has(v.queenRooksAttacks[o], t) || Has(v.queenBishopsAttacks[o], t)
  }

  /** position_inCheck: the king of the side to move meets a pawn, knight or slider attack set of the other side. */
  predicate InCheck(v: View)
    requires v.Shaped()
  {
    var o := Other(v.side);
    !Disjoint(v.pawnAttacks[o], OurKing(v)) || !Disjoint(v.knightsAttacks[o], OurKing(v)) ||
    !Disjoint(v.queenRooksAttacks[o], OurKing(v)) || !Disjoint(v.queenBishopsAttacks[o], OurKing(v))
  }

  /** The attack sets of side `c` are those genAttacks builds from empty sets (and that side has a king). */
  predicate Built(w: View, c: int)
    requires w.Shaped() && IsSide(c)
  {
    w.pieces[K + c] != 0 &&
    w.pawnAttacks[c] == PawnAttacksOf(w.pieces, c) &&
    w.kingAttacks[c] == KingAttacksOf(w.pieces, c) &&
    w.knightsAttacks[c] == KnightsAttacksOf(EMPTY, w.pieces, c) &&
    w.queenRooksAttacks[c] == QueenRooksAttacksOf(EMPTY, w.pieces, w.occupied, c) &&
    w.queenBishopsAttacks[c] == QueenBishopsAttacksOf(EMPTY, w.pieces, w.occupied, c)
  }

  /** genAttacks on a refreshed record builds the attack sets of both sides and changes nothing else. */
  lemma AttackedBuilds(v: View)
    requires v.Shaped() && KingsPresent(v) && Fresh(v)
    ensures Built(Attacked(v), WHITE) && Built(Attacked(v), BLACK)
    ensures Attacked(v).(kingAttacks := v.kingAttacks, knightsAttacks := v.knightsAttacks,
                        queenRooksAttacks := v.queenRooksAttacks, queenBishopsAttacks := v.queenBishopsAttacks,
                        pawnAttacks := v.pawnAttacks) == v
  {
  }

  /**
   * With the attack sets built, squareAttacked(t) holds exactly when some
   * piece of the side not to move attacks `t` (that side has one king).
   */
  lemma SquareAttackedMeaning(w: View, king: Square, t: Square)
    requires w.Shaped() && Built(w, Other(w.side)) && w.pieces[K + Other(w.side)] == Sq64(king)
    ensures SquareAttacked(w, t) <==> AttackedBy(w.pieces, w.occupied, Other(w.side), t)
  {
    var ps, occ, o := w.pieces, w.occupied, Other(w.side);
    PawnAttacksOfHas(ps, occ, o, t);
    KnightsAttacksHas(ps, occ, o, t);
    KingAttacksHas(ps, occ, o, king, t);
    SlidersHas(ps, occ, o, t);
  }

  /**
   * With the attack sets built, position_inCheck holds exactly when a pawn,
   * knight, queen, rook or bishop of the other side attacks the square of
   * the king to move; the other king is not looked at.
   */
  lemma InCheckMeaning(w: View, king: Square)
    requires w.Shaped() && Built(w, Other(w.side)) && OurKing(w) == Sq64(king)
    ensures InCheck(w) <==> CheckedBy(w.pieces, w.occupied, Other(w.side), king)
  {
    var ps, occ, o := w.pieces, w.occupied, Other(w.side);
    PawnAttacksOfHas(ps, occ, o, king);
    KnightsAttacksHas(ps, occ, o, king);
    SlidersHas(ps, occ, o, king);
    MeetsSquare(w.pawnAttacks[o], king);
    MeetsSquare(w.knightsAttacks[o], king);
    MeetsSquare(w.queenRooksAttacks[o], king);
    MeetsSquare(w.queenBishopsAttacks[o], king);
  }

  /** Some pawn, queen, knight, bishop or rook of side `c` attacks `t`. */
  ghost predicate CheckedBy(ps: seq<Bitboard>, occ: Bitboard, c: int, t: Square)
    requires |ps| == 12 && IsSide(c)
  {
    KindHits(ps, occ, P + c, t) || KindHits(ps, occ, Q + c, t) ||
    KindHits(ps, occ, N + c, t) || KindHits(ps, occ, B + c, t) || KindHits(ps, occ, R + c, t)
  }

  /** A board meets a one-square board exactly when it holds that square. */
  lemma MeetsSquare(a: Bitboard, s: Square)
    ensures !Disjoint(a, Sq64(s)) <==> Has(a, s)
  {
  }

  /* ---------------------------------------------------------------- */
  /* position_attacksFrom                                             */
  /* ---------------------------------------------------------------- */

  /**
   * position_attacksFrom(sq): the attack board of whatever stands on `sq`,
   * found by testing the boards in the order P, p, kings, knights, then the
   * rook-like and bishop-like sliders (a queen is both).
   */
  function AttacksFrom(ps: seq<Bitboard>, occ: Bitboard, sq: Square): Bitboard
    requires |ps| == 12
  {
    if Has(ps[P], sq) then Join(NoWeOne(Sq64(sq)), NoEaOne(Sq64(sq)))
    else if Has(ps[p], sq) then Join(SoWeOne(Sq64(sq)), SoEaOne(Sq64(sq)))
    else if Has(Kings(ps), sq) then KingMoves(sq)
    else if Has(Knights(ps), sq) then KnightMoves(sq)
    else
      var rooks := if Has(QueenRooks(ps), sq) then RookAttacks(sq, occ) else EMPTY;
      var bishops := if Has(QueenBishops(ps), sq) then BishopAttacks(sq, occ) else EMPTY;
      Join(Join(EMPTY, rooks), bishops)
  }

  /** When no two boards share a square, a piece on `s` is the only one there. */
  lemma Alone(ps: seq<Bitboard>, x: int, y: int, s: Square)
    requires |ps| == 12 && PiecesDisjoint(ps) && IsPiece(x) && IsPiece(y) && x != y && Has(ps[x], s)
    ensures !Has(ps[y], s)
  {
    if x < y {
      DisjointHas(ps[x], ps[y], s);
    } else {
      DisjointHas(ps[y], ps[x], s);
    }
  }

  /** On a board where no two pieces share a square, attacksFrom(s) is the attack board of the piece on `s`. */
  lemma AttacksFromPiece(ps: seq<Bitboard>, occ: Bitboard, x: int, s: Square)
    requires |ps| == 12 && PiecesDisjoint(ps) && IsPiece(x) && Has(ps[x], s)
    ensures AttacksFrom(ps, occ, s) == PieceAttacks(x, s, occ)
  {
    if x == p {
      Alone(ps, x, P, s);
    } else if x != P {
      Alone(ps, x, P, s);
      Alone(ps, x, p, s);
      JoinHas(ps[k], ps[K], s);
      if x == K || x == k {
        AttacksFromStep(ps, occ, x, s);
      } else {
        Alone(ps, x, K, s);
        Alone(ps, x, k, s);
        JoinHas(ps[n], ps[N], s);
        if x == N || x == n {
          AttacksFromStep(ps, occ, x, s);
        } else {
          Alone(ps, x, N, s);
          Alone(ps, x, n, s);
          SliderAlone(ps, x, s);
          QueenRooksHas(ps, s);
          QueenBishopsHas(ps, s);
          AttacksFromSlider(ps, occ, x, s, Has(QueenRooks(ps), s), Has(QueenBishops(ps), s));
        }
      }
    }
  }

  /** The slider boards other than that of the slider on `s` are empty there. */
  lemma SliderAlone(ps: seq<Bitboard>, x: int, s: Square)
    requires |ps| == 12 && PiecesDisjoint(ps) && Q <= x < 12 && x != N && x != n && Has(ps[x], s)
    ensures x != Q ==> !Has(ps[Q], s)
    ensures x != q ==> !Has(ps[q], s)
    ensures x != R ==> !Has(ps[R], s)
    ensures x != r ==> !Has(ps[r], s)
    ensures x != B ==> !Has(ps[B], s)
    ensures x != b ==> !Has(ps[b], s)
  {
    if x != Q { Alone(ps, x, Q, s); }
    if x != q { Alone(ps, x, q, s); }
    if x != R { Alone(ps, x, R, s); }
    if x != r { Alone(ps, x, r, s); }
    if x != B { Alone(ps, x, B, s); }
    if x != b { Alone(ps, x, b, s); }
  }

  /** attacksFrom on the square of a king or a knight, once the pawn tests have failed. */
  lemma AttacksFromStep(ps: seq<Bitboard>, occ: Bitboard, x: int, s: Square)
    requires |ps| == 12 && !Has(ps[P], s) && !Has(ps[p], s)
    requires ((x == K || x == k) && Has(Kings(ps), s)) || ((x == N || x == n) && !Has(Kings(ps), s) && Has(Knights(ps), s))
    ensures AttacksFrom(ps, occ, s) == PieceAttacks(x, s, occ)
  {
    PieceAttacksKinds(x, s, occ);
  }

  /** attacksFrom on the square of a slider: a rook is rook-like only, a bishop bishop-like only, a queen both. */
  lemma AttacksFromSlider(ps: seq<Bitboard>, occ: Bitboard, x: int, s: Square, rookLike: bool, bishopLike: bool)
    requires |ps| == 12 && !Has(ps[P], s) && !Has(ps[p], s) && !Has(Kings(ps), s) && !Has(Knights(ps), s)
    requires IsPiece(x) && x != P && x != p && x != K && x != k && x != N && x != n
    requires rookLike == Has(QueenRooks(ps), s) && bishopLike == Has(QueenBishops(ps), s)
    requires rookLike <==> x == Q || x == q || x == R || x == r
    requires bishopLike <==> x == Q || x == q || x == B || x == b
    ensures AttacksFrom(ps, occ, s) == PieceAttacks(x, s, occ)
  {
    PieceAttacksKinds(x, s, occ);
    JoinEmpty(RookAttacks(s, occ), BishopAttacks(s, occ));
  }

  lemma JoinEmpty(a: Bitboard, c: Bitboard)
    ensures Join(Join(EMPTY, a), EMPTY) == a && Join(Join(EMPTY, EMPTY), c) == c
    ensures Join(Join(EMPTY, a), c) == Join(a, c) && Join(Join(EMPTY, EMPTY), EMPTY) == EMPTY
  {
  }

  /** attacksFrom of an empty square is empty. */
  lemma AttacksFromEmpty(ps: seq<Bitboard>, occ: Bitboard, s: Square)
    requires |ps| == 12 && forall y :: IsPiece(y) ==> !Has(ps[y], s)
    ensures AttacksFrom(ps, occ, s) == EMPTY
  {
    assert !Has(ps[k], s) && !Has(ps[K], s) && !Has(ps[n], s) && !Has(ps[N], s);
    assert !Has(ps[Q], s) && !Has(ps[q], s) && !Has(ps[R], s) && !Has(ps[r], s) && !Has(ps[B], s) && !Has(ps[b], s);
    JoinHas(ps[k], ps[K], s);
    JoinHas(ps[n], ps[N], s);
    QueenRooksHas(ps, s);
    QueenBishopsHas(ps, s);
  }

  /* ---------------------------------------------------------------- */
  /* position_getAttackersTo                                          */
  /* ---------------------------------------------------------------- */

  /** `if (gate & SQ64(t)) attackers |= mask & pieces`: one test of getAttackersTo. */
  function Gated(gate: Bitboard, t: Square, mask: Bitboard, pieces: Bitboard): Bitboard {
    if Has(gate, t) then Masked(mask, pieces) else EMPTY
  }

  /** The pawns of side `c` standing where a pawn of theirs would attack `t`, if that side's pawns attack `t` at all. */
  function PawnAttackers(w: View, c: int, t: Square): Bitboard
    requires w.Shaped() && IsSide(c)
  {
    var bb := Sq64(t);
    if c == WHITE then Gated(w.pawnAttacks[WHITE], t, Join(SoWeOne(bb), SoEaOne(bb)), w.pieces[P])
    else Gated(w.pawnAttacks[BLACK], t, Join(NoWeOne(bb), NoEaOne(bb)), w.pieces[p])
  }

  function KnightAttackers(w: View, t: Square): Bitboard
    requires w.Shaped()
  {
    Gated(Join(w.knightsAttacks[WHITE], w.knightsAttacks[BLACK]), t, KnightMoves(t), Knights(w.pieces))
  }

  function KingAttackers(w: View, t: Square): Bitboard
    requires w.Shaped()
  {
    Gated(Join(w.kingAttacks[WHITE], w.kingAttacks[BLACK]), t, KingMoves(t), Kings(w.pieces))
  }

  function RookAttackers(w: View, t: Square): Bitboard
    requires w.Shaped()
  {
    Gated(Join(w.queenRooksAttacks[WHITE], w.queenRooksAttacks[BLACK]), t, RookAttacks(t, w.occupied), QueenRooks(w.pieces))
  }

  function BishopAttackers(w: View, t: Square): Bitboard
    requires w.Shaped()
  {
    Gated(Join(w.queenBishopsAttacks[WHITE], w.queenBishopsAttacks[BLACK]), t, BishopAttacks(t, w.occupied), QueenBishops(w.pieces))
  }

  /** position_getAttackersTo(t): the pieces of either side that attack `t`. */
  function AttackersTo(w: View, t: Square): Bitboard
    requires w.Shaped()
  {
    Join(Join(Join(PawnAttackers(w, WHITE, t), PawnAttackers(w, BLACK, t)), KnightAttackers(w, t)),
         Join(Join(KingAttackers(w, t), RookAttackers(w, t)), BishopAttackers(w, t)))
  }

  /** A gated test adds exactly the pieces on the mask, when the gate holds for every such piece that attacks `t`. */
  lemma GatedHas(gate: Bitboard, t: Square, mask: Bitboard, pieces: Bitboard, s: Square, attacks: bool, on: bool, opens: bool)
    requires Has(mask, s) <==> attacks
    requires Has(pieces, s) <==> on
    requires on && attacks ==> opens
    requires opens ==> Has(gate, t)
    ensures Has(Gated(gate, t, mask, pieces), s) <==> on && attacks
  {
    MaskedHas(mask, pieces, s);
    EmptyHas(s);
  }

  /** A piece that attacks `t` makes Hits true. */
  lemma HitBy(xs: Bitboard, f: Square -> Bitboard, s: Square, t: Square)
    requires Has(xs, s) && Has(f(s), t)
    ensures Hits(xs, f, t)
  {
  }

  /** The white-pawn test finds exactly the white pawns that attack `t`. */
  lemma WhitePawnAttackersHas(w: View, t: Square, s: Square)
    requires w.Shaped() && Built(w, WHITE)
    ensures Has(PawnAttackers(w, WHITE, t), s) <==> Has(w.pieces[P], s) && Has(PieceAttacks(P, s, w.occupied), t)
  {
    var ps, occ := w.pieces, w.occupied;
    var attacks := Has(PieceAttacks(P, s, occ), t);
    BlackPawnHas(t, s);
    BlackPawnSquares(t, s);
    WhitePawnHas(s, t);
    WhitePawnSquares(s, t);
    DistSymmetric(FileOf(s), FileOf(t));
    if Has(ps[P], s) && attacks {
      HitBy(ps[P], AttacksOf(P, occ), s, t);
      PawnAttacksOfHas(ps, occ, WHITE, t);
    }
    GatedHas(w.pawnAttacks[WHITE], t, Join(SoWeOne(Sq64(t)), SoEaOne(Sq64(t))), ps[P], s, attacks,
             Has(ps[P], s), Has(w.pawnAttacks[WHITE], t));
  }

  /** The black-pawn test finds exactly the black pawns that attack `t`. */
  lemma BlackPawnAttackersHas(w: View, t: Square, s: Square)
    requires w.Shaped() && Built(w, BLACK)
    ensures Has(PawnAttackers(w, BLACK, t), s) <==> Has(w.pieces[p], s) && Has(PieceAttacks(p, s, w.occupied), t)
  {
    var ps, occ := w.pieces, w.occupied;
    var attacks := Has(PieceAttacks(p, s, occ), t);
    WhitePawnHas(t, s);
    WhitePawnSquares(t, s);
    BlackPawnHas(s, t);
    BlackPawnSquares(s, t);
    DistSymmetric(FileOf(s), FileOf(t));
    if Has(ps[p], s) && attacks {
      HitBy(ps[p], AttacksOf(p, occ), s, t);
      PawnAttacksOfHas(ps, occ, BLACK, t);
    }
    GatedHas(w.pawnAttacks[BLACK], t, Join(NoWeOne(Sq64(t)), NoEaOne(Sq64(t))), ps[p], s, attacks,
             Has(ps[p], s), Has(w.pawnAttacks[BLACK], t));
  }

  /** The knight test finds exactly the knights, of either side, that attack `t`. */
  lemma KnightAttackersHas(w: View, t: Square, s: Square)
    requires w.Shaped() && Built(w, WHITE) && Built(w, BLACK)
    ensures Has(KnightAttackers(w, t), s) <==> (Has(w.pieces[N], s) || Has(w.pieces[n], s)) && Has(KnightMoves(s), t)
  {
    KnightTest(w.pieces, w.occupied, w.knightsAttacks[WHITE], w.knightsAttacks[BLACK], t, s);
  }

  lemma KnightTest(ps: seq<Bitboard>, occ: Bitboard, gw: Bitboard, gb: Bitboard, t: Square, s: Square)
    requires |ps| == 12 && gw == KnightsAttacksOf(EMPTY, ps, WHITE) && gb == KnightsAttacksOf(EMPTY, ps, BLACK)
    ensures Has(Gated(Join(gw, gb), t, KnightMoves(t), Knights(ps)), s) <==>
      (Has(ps[N], s) || Has(ps[n], s)) && Has(KnightMoves(s), t)
  {
    var attacks := Has(KnightMoves(s), t);
    KnightMovesSymmetric(t, s);
    JoinHas(ps[n], ps[N], s);
    JoinHas(gw, gb, t);
    if attacks {
      KnightGate(ps, occ, WHITE, s, t);
      KnightGate(ps, occ, BLACK, s, t);
    }
    GatedHas(Join(gw, gb), t, KnightMoves(t), Knights(ps), s, attacks,
             Has(ps[N], s) || Has(ps[n], s), Has(gw, t) || Has(gb, t));
  }

  lemma KnightGate(ps: seq<Bitboard>, occ: Bitboard, c: int, s: Square, t: Square)
    requires |ps| == 12 && IsSide(c) && Has(KnightMoves(s), t)
    ensures Has(ps[N + c], s) ==> Has(KnightsAttacksOf(EMPTY, ps, c), t)
  {
    if Has(ps[N + c], s) {
      PieceAttacksKinds(N + c, s, occ);
      HitBy(ps[N + c], AttacksOf(N + c, occ), s, t);
      KnightsAttacksHas(ps, occ, c, t);
    }
  }

  /** The king test finds exactly the kings that attack `t`, when each side has one king. */
  lemma KingAttackersHas(w: View, wk: Square, bk: Square, t: Square, s: Square)
    requires w.Shaped() && Built(w, WHITE) && Built(w, BLACK) && w.pieces[K] == Sq64(wk) && w.pieces[k] == Sq64(bk)
    ensures Has(KingAttackers(w, t), s) <==> (Has(w.pieces[K], s) || Has(w.pieces[k], s)) && Has(KingMoves(s), t)
  {
    KingTest(w.pieces, w.occupied, w.kingAttacks[WHITE], w.kingAttacks[BLACK], wk, bk, t, s);
  }

  lemma KingTest(ps: seq<Bitboard>, occ: Bitboard, gw: Bitboard, gb: Bitboard, wk: Square, bk: Square, t: Square, s: Square)
    requires |ps| == 12 && ps[K] == Sq64(wk) && ps[k] == Sq64(bk) && ps[K] != 0 && ps[k] != 0
    requires gw == KingAttacksOf(ps, WHITE) && gb == KingAttacksOf(ps, BLACK)
    ensures Has(Gated(Join(gw, gb), t, KingMoves(t), Kings(ps)), s) <==>
      (Has(ps[K], s) || Has(ps[k], s)) && Has(KingMoves(s), t)
  {
    var attacks := Has(KingMoves(s), t);
    KingMovesSymmetric(t, s);
    JoinHas(ps[k], ps[K], s);
    JoinHas(gw, gb, t);
    if attacks {
      KingGate(ps, occ, WHITE, wk, s, t);
      KingGate(ps, occ, BLACK, bk, s, t);
    }
    GatedHas(Join(gw, gb), t, KingMoves(t), Kings(ps), s, attacks,
             Has(ps[K], s) || Has(ps[k], s), Has(gw, t) || Has(gb, t));
  }

  lemma KingGate(ps: seq<Bitboard>, occ: Bitboard, c: int, king: Square, s: Square, t: Square)
    requires |ps| == 12 && IsSide(c) && ps[K + c] == Sq64(king) && Has(KingMoves(s), t)
    ensures Has(ps[K + c], s) ==> Has(KingAttacksOf(ps, c), t)
  {
    if Has(ps[K + c], s) {
      PieceAttacksKinds(K + c, s, occ);
      HitBy(ps[K + c], AttacksOf(K + c, occ), s, t);
      KingAttacksHas(ps, occ, c, king, t);
    }
  }

  /** The rook-like test finds exactly the queens and rooks, of either side, that see `t` along a file or rank. */
  lemma RookAttackersHas(w: View, t: Square, s: Square)
    requires w.Shaped() && Built(w, WHITE) && Built(w, BLACK)
    ensures Has(RookAttackers(w, t), s) <==>
      (Has(w.pieces[Q], s) || Has(w.pieces[q], s) || Has(w.pieces[R], s) || Has(w.pieces[r], s)) &&
      Has(RookAttacks(s, w.occupied), t)
  {
    RookTest(w.pieces, w.occupied, w.queenRooksAttacks[WHITE], w.queenRooksAttacks[BLACK], t, s);
  }

  lemma RookTest(ps: seq<Bitboard>, occ: Bitboard, gw: Bitboard, gb: Bitboard, t: Square, s: Square)
    requires |ps| == 12 && gw == QueenRooksAttacksOf(EMPTY, ps, occ, WHITE) && gb == QueenRooksAttacksOf(EMPTY, ps, occ, BLACK)
    ensures Has(Gated(Join(gw, gb), t, RookAttacks(t, occ), QueenRooks(ps)), s) <==>
      (Has(ps[Q], s) || Has(ps[q], s) || Has(ps[R], s) || Has(ps[r], s)) && Has(RookAttacks(s, occ), t)
  {
    var attacks := Has(RookAttacks(s, occ), t);
    RookAttacksSymmetric(t, occ, s);
    QueenRooksHas(ps, s);
    JoinHas(gw, gb, t);
    if attacks {
      RookGate(ps, occ, WHITE, s, t);
      RookGate(ps, occ, BLACK, s, t);
    }
    GatedHas(Join(gw, gb), t, RookAttacks(t, occ), QueenRooks(ps), s, attacks,
             Has(ps[Q], s) || Has(ps[q], s) || Has(ps[R], s) || Has(ps[r], s), Has(gw, t) || Has(gb, t));
  }

  lemma RookGate(ps: seq<Bitboard>, occ: Bitboard, c: int, s: Square, t: Square)
    requires |ps| == 12 && IsSide(c) && Has(RookAttacks(s, occ), t)
    ensures Has(ps[Q + c], s) || Has(ps[R + c], s) ==> Has(QueenRooksAttacksOf(EMPTY, ps, occ, c), t)
  {
    QueenRooksAttacksHas(ps, occ, c, t);
    if Has(ps[Q + c], s) {
      HitBy(ps[Q + c], RookFrom(occ), s, t);
    }
    if Has(ps[R + c], s) {
      HitBy(ps[R + c], RookFrom(occ), s, t);
    }
  }

  /** The bishop-like test finds exactly the queens and bishops, of either side, that see `t` along a diagonal. */
  lemma BishopAttackersHas(w: View, t: Square, s: Square)
    requires w.Shaped() && Built(w, WHITE) && Built(w, BLACK)
    ensures Has(BishopAttackers(w, t), s) <==>
      (Has(w.pieces[Q], s) || Has(w.pieces[q], s) || Has(w.pieces[B], s) || Has(w.pieces[b], s)) &&
      Has(BishopAttacks(s, w.occupied), t)
  {
    BishopTest(w.pieces, w.occupied, w.queenBishopsAttacks[WHITE], w.queenBishopsAttacks[BLACK], t, s);
  }

  lemma BishopTest(ps: seq<Bitboard>, occ: Bitboard, gw: Bitboard, gb: Bitboard, t: Square, s: Square)
    requires |ps| == 12 && gw == QueenBishopsAttacksOf(EMPTY, ps, occ, WHITE) && gb == QueenBishopsAttacksOf(EMPTY, ps, occ, BLACK)
    ensures Has(Gated(Join(gw, gb), t, BishopAttacks(t, occ), QueenBishops(ps)), s) <==>
      (Has(ps[Q], s) || Has(ps[q], s) || Has(ps[B], s) || Has(ps[b], s)) && Has(BishopAttacks(s, occ), t)
  {
    var attacks := Has(BishopAttacks(s, occ), t);
    BishopAttacksSymmetric(t, occ, s);
    QueenBishopsHas(ps, s);
    JoinHas(gw, gb, t);
    if attacks {
      BishopGate(ps, occ, WHITE, s, t);
      BishopGate(ps, occ, BLACK, s, t);
    }
    GatedHas(Join(gw, gb), t, BishopAttacks(t, occ), QueenBishops(ps), s, attacks,
             Has(ps[Q], s) || Has(ps[q], s) || Has(ps[B], s) || Has(ps[b], s), Has(gw, t) || Has(gb, t));
  }

  lemma BishopGate(ps: seq<Bitboard>, occ: Bitboard, c: int, s: Square, t: Square)
    requires |ps| == 12 && IsSide(c) && Has(BishopAttacks(s, occ), t)
    ensures Has(ps[Q + c], s) || Has(ps[B + c], s) ==> Has(QueenBishopsAttacksOf(EMPTY, ps, occ, c), t)
  {
    QueenBishopsAttacksHas(ps, occ, c, t);
    if Has(ps[Q + c], s) {
      HitBy(ps[Q + c], BishopFrom(occ), s, t);
    }
    if Has(ps[B + c], s) {
      HitBy(ps[B + c], BishopFrom(occ), s, t);
    }
  }

  /** What the six tests of getAttackersTo pick up on `s`, by kind of piece. */
  ghost predicate AttackerParts(ps: seq<Bitboard>, occ: Bitboard, s: Square, t: Square)
    requires |ps| == 12
  {
    (Has(ps[P], s) && Has(PieceAttacks(P, s, occ), t)) ||
    (Has(ps[p], s) && Has(PieceAttacks(p, s, occ), t)) ||
    ((Has(ps[N], s) || Has(ps[n], s)) && Has(KnightMoves(s), t)) ||
    ((Has(ps[K], s) || Has(ps[k], s)) && Has(KingMoves(s), t)) ||
    ((Has(ps[Q], s) || Has(ps[q], s) || Has(ps[R], s) || Has(ps[r], s)) && Has(RookAttacks(s, occ), t)) ||
    ((Has(ps[Q], s) || Has(ps[q], s) || Has(ps[B], s) || Has(ps[b], s)) && Has(BishopAttacks(s, occ), t))
  }

  lemma Join6Has(a: Bitboard, b: Bitboard, c: Bitboard, d: Bitboard, e: Bitboard, f: Bitboard, s: Square)
    ensures Has(Join(Join(Join(a, b), c), Join(Join(d, e), f)), s) <==>
      Has(a, s) || Has(b, s) || Has(c, s) || Has(d, s) || Has(e, s) || Has(f, s)
  {
    Join3Has(a, b, c, s);
    Join3Has(d, e, f, s);
    JoinHas(Join(Join(a, b), c), Join(Join(d, e), f), s);
    OrHalves(Has(Join(Join(Join(a, b), c), Join(Join(d, e), f)), s), Has(Join(Join(a, b), c), s), Has(Join(Join(d, e), f), s),
             Has(a, s), Has(b, s), Has(c, s), Has(d, s), Has(e, s), Has(f, s));
  }

  lemma OrHalves(all: bool, left: bool, right: bool, a: bool, b: bool, c: bool, d: bool, e: bool, f: bool)
    requires all <==> left || right
    requires left <==> a || b || c
    requires right <==> d || e || f
    ensures all <==> a || b || c || d || e || f
  {
  }

  lemma Join3Has(a: Bitboard, b: Bitboard, c: Bitboard, s: Square)
    ensures Has(Join(Join(a, b), c), s) <==> Has(a, s) || Has(b, s) || Has(c, s)
  {
    JoinHas(a, b, s);
    JoinHas(Join(a, b), c, s);
  }

  /** Put together, the tests of getAttackersTo pick up every piece that attacks `t` and nothing else. */
  lemma AttackersToHas(w: View, wk: Square, bk: Square, t: Square, s: Square)
    requires w.Shaped() && Built(w, WHITE) && Built(w, BLACK) && w.pieces[K] == Sq64(wk) && w.pieces[k] == Sq64(bk)
    ensures Has(AttackersTo(w, t), s) <==> AttackerParts(w.pieces, w.occupied, s, t)
  {
    Join6Has(PawnAttackers(w, WHITE, t), PawnAttackers(w, BLACK, t), KnightAttackers(w, t),
             KingAttackers(w, t), RookAttackers(w, t), BishopAttackers(w, t), s);
    WhitePawnAttackersHas(w, t, s);
    BlackPawnAttackersHas(w, t, s);
    KnightAttackersHas(w, t, s);
    KingAttackersHas(w, wk, bk, t, s);
    RookAttackersHas(w, t, s);
    BishopAttackersHas(w, t, s);
  }

  /** With one piece per square, the parts reduce to the attack board of the piece standing on `s`. */
  lemma AttackerPartsOfPiece(ps: seq<Bitboard>, occ: Bitboard, x: int, s: Square, t: Square)
    requires |ps| == 12 && PiecesDisjoint(ps) && IsPiece(x) && Has(ps[x], s)
    ensures AttackerParts(ps, occ, s, t) <==> Has(PieceAttacks(x, s, occ), t)
  {
    if x != P { Alone(ps, x, P, s); }
    if x != p { Alone(ps, x, p, s); }
    if x != K { Alone(ps, x, K, s); }
    if x != k { Alone(ps, x, k, s); }
    if x != N { Alone(ps, x, N, s); }
    if x != n { Alone(ps, x, n, s); }
    if x != Q { Alone(ps, x, Q, s); }
    if x != q { Alone(ps, x, q, s); }
    if x != R { Alone(ps, x, R, s); }
    if x != r { Alone(ps, x, r, s); }
    if x != B { Alone(ps, x, B, s); }
    if x != b { Alone(ps, x, b, s); }
    PieceAttacksKinds(x, s, occ);
    JoinHas(RookAttacks(s, occ), BishopAttacks(s, occ), t);
  }

  /** On an empty square the parts pick up nothing. */
  lemma AttackerPartsOfEmpty(ps: seq<Bitboard>, occ: Bitboard, s: Square, t: Square)
    requires |ps| == 12 && forall y :: IsPiece(y) ==> !Has(ps[y], s)
    ensures !AttackerParts(ps, occ, s, t)
  {
    assert !Has(ps[P], s) && !Has(ps[p], s) && !Has(ps[K], s) && !Has(ps[k], s) && !Has(ps[N], s) && !Has(ps[n], s);
    assert !Has(ps[Q], s) && !Has(ps[q], s) && !Has(ps[R], s) && !Has(ps[r], s) && !Has(ps[B], s) && !Has(ps[b], s);
  }

  /**
   * getAttackersTo is the converse of attacksFrom: once genAttacks has run
   * on a board with one king per side and one piece per square, `s` is
   * among the attackers of `t` exactly when `t` is among the attacks from `s`.
   */
  lemma AttackersToMeaning(w: View, wk: Square, bk: Square, t: Square, s: Square)
    requires w.Shaped() && Built(w, WHITE) && Built(w, BLACK) && w.pieces[K] == Sq64(wk) && w.pieces[k] == Sq64(bk)
    requires PiecesDisjoint(w.pieces)
    ensures Has(AttackersTo(w, t), s) <==> Has(AttacksFrom(w.pieces, w.occupied, s), t)
  {
    var ps, occ := w.pieces, w.occupied;
    AttackersToHas(w, wk, bk, t, s);
    if x :| IsPiece(x) && Has(ps[x], s) {
      AttackerPartsOfPiece(ps, occ, x, s, t);
      AttacksFromPiece(ps, occ, x, s);
    } else {
      AttackerPartsOfEmpty(ps, occ, s, t);
      AttacksFromEmpty(ps, occ, s);
      EmptyHas(t);
    }
  }

  /* ---------------------------------------------------------------- */
  /* genAttacks as written: only the lowest queen                      */
  /* ---------------------------------------------------------------- */

  /**
   * queenRooksAttacks[c] as genAttacks computes it: the queen step takes
   * the bit scan of the whole queen board, so only the lowest queen of the
   * side is counted, then the rooks are ORed in.
   */
  function QueenRooksAttacksAsWritten(acc: Bitboard, ps: seq<Bitboard>, occ: Bitboard, c: int): Bitboard
    requires |ps| == 12 && IsSide(c)
  {
    var queens := ps[Q + c];
    Spread(if queens != 0 then Join(acc, RookAttacks(BitScanForward(queens), occ)) else acc, ps[R + c], RookFrom(occ))
  }

  /**
   * With White queens on a1 and h8 and nothing else on the board, g8 is
   * attacked along the eighth rank by the h8 queen, but the attack set
   * genAttacks builds misses it: it only looks at the a1 queen.
   */
  lemma SecondQueenMissed(ps: seq<Bitboard>, occ: Bitboard)
    requires |ps| == 12 && ps[Q] == Join(Sq64(A1), Sq64(H8)) && ps[R] == EMPTY && occ == ps[Q]
    ensures Has(QueenRooksAttacksOf(EMPTY, ps, occ, WHITE), G8)
    ensures !Has(QueenRooksAttacksAsWritten(EMPTY, ps, occ, WHITE), G8)
  {
    JoinHas(Sq64(A1), Sq64(H8), A1);
    JoinHas(Sq64(A1), Sq64(H8), H8);
    Sq64Has(A1, A1);
    Sq64Has(H8, H8);
    EmptyHas(G8);
    // The corrected set: the h8 queen sees g8.
    NeighbourClear(occ);
    RookAttacksHas(H8, occ, G8);
    HitBy(ps[Q], RookFrom(occ), H8, G8);
    SpreadHas(EMPTY, ps[Q], RookFrom(occ), G8);
    SpreadHas(Spread(EMPTY, ps[Q], RookFrom(occ)), ps[R], RookFrom(occ), G8);
    HitsEmpty(RookFrom(occ), G8);
    // As written: only the a1 queen, which shares neither file nor rank with g8.
    assert BitScanForward(ps[Q]) == A1;
    RookAttacksHas(A1, occ, G8);
    JoinHas(EMPTY, RookAttacks(A1, occ), G8);
    SpreadHas(Join(EMPTY, RookAttacks(A1, occ)), ps[R], RookFrom(occ), G8);
  }

  /** Nothing lies between the neighbouring squares h8 and g8. */
  lemma NeighbourClear(occ: Bitboard)
    ensures Clear(H8, occ, G8)
  {
    forall u: Square ensures !(Has(Segment(H8, G8), u) && Has(occ, u)) {
      SegmentHas(H8, G8, u);
    }
    DisjointFromHas(Segment(H8, G8), occ);
  }

  /**
   * queenBishopsAttacks[c] as genAttacks computes it: like the rook-like
   * set, the queen step takes the bit scan of the whole queen board, so only
   * the lowest queen's diagonals are counted, then the bishops are ORed in.
   */
  function QueenBishopsAttacksAsWritten(acc: Bitboard, ps: seq<Bitboard>, occ: Bitboard, c: int): Bitboard
    requires |ps| == 12 && IsSide(c)
  {
    var queens := ps[Q + c];
    Spread(if queens != 0 then Join(acc, BishopAttacks(BitScanForward(queens), occ)) else acc, ps[B + c], BishopFrom(occ))
  }

  /**
   * With White queens on a1 and h1 and nothing else on the board, g2 is
   * attacked along the diagonal by the h1 queen, but the bishop-like set
   * genAttacks builds misses it: it only looks at the a1 queen.
   */
  lemma SecondQueenDiagonalMissed(ps: seq<Bitboard>, occ: Bitboard)
    requires |ps| == 12 && ps[Q] == Join(Sq64(A1), Sq64(H1)) && ps[B] == EMPTY && occ == ps[Q]
    ensures Has(QueenBishopsAttacksOf(EMPTY, ps, occ, WHITE), G2)
    ensures !Has(QueenBishopsAttacksAsWritten(EMPTY, ps, occ, WHITE), G2)
  {
    JoinHas(Sq64(A1), Sq64(H1), A1);
    JoinHas(Sq64(A1), Sq64(H1), H1);
    Sq64Has(A1, A1);
    Sq64Has(H1, H1);
    EmptyHas(G2);
    // The corrected set: the h1 queen sees g2.
    DiagonalNeighbourClear(occ);
    BishopAttacksHas(H1, occ, G2);
    HitBy(ps[Q], BishopFrom(occ), H1, G2);
    SpreadHas(EMPTY, ps[Q], BishopFrom(occ), G2);
    SpreadHas(Spread(EMPTY, ps[Q], BishopFrom(occ)), ps[B], BishopFrom(occ), G2);
    HitsEmpty(BishopFrom(occ), G2);
    // As written: only the a1 queen, whose diagonals do not reach g2.
    assert BitScanForward(ps[Q]) == A1;
    BishopAttacksHas(A1, occ, G2);
    JoinHas(EMPTY, BishopAttacks(A1, occ), G2);
    SpreadHas(Join(EMPTY, BishopAttacks(A1, occ)), ps[B], BishopFrom(occ), G2);
  }

  /** Nothing lies between the diagonal neighbours h1 and g2. */
  lemma DiagonalNeighbourClear(occ: Bitboard)
    ensures Clear(H1, occ, G2)
  {
    forall u: Square ensures !(Has(Segment(H1, G2), u) && Has(occ, u)) {
      SegmentHas(H1, G2, u);
    }
    DisjointFromHas(Segment(H1, G2), occ);
  }
}
