/**
 * position_fromFen (src/position.c): the FEN text is read one character at a
 * time, a space moving on to the next field. The board field places the
 * pieces (rank 8 first, a-file first), the side field sets the side to move,
 * the castling field the rights and the en-passant field the square a pawn
 * has just passed over; each change toggles its Zobrist key into the hash.
 * The move counters that follow are skipped.
 *
 * Three steps are corrected here, each next to the member that keeps the
 * code as written: a piece letter whose square lies off the board is refused
 * (PlacementAsWritten), the side key is toggled only when the side to move
 * changes (SideCharAsWritten), and the castling key of the rights is toggled
 * in once rather than once per letter (CastlingCharAsWritten).
 */
module Fen {
  import opened Wrappers
  import opened Bits
  import opened Pieces
  import opened Notation
  import opened MakeMove

  /**
   * The parser's locals: the field being read (`part`), the board cursor,
   * `last_double`, and whether the castling key has been toggled in yet.
   */
  datatype Cursor = Cursor(part: int, rank: int, file: int, lastDouble: Bitboard, castled: bool)

  /** The locals at the start: board field, rank 8, a-file, no double push seen. */
  const START: Cursor := Cursor(0, 7, 0, EMPTY, false)

  /** `last_double` is only ever set together with the en-passant square. */
  predicate Tracked(c: Core, u: Cursor) {
    u.lastDouble != EMPTY ==> c.enpassant.Some?
  }

  /* The board field. */

  /** The digits '1'..'8', each skipping that many files. */
  predicate IsSkip(ch: char) { '1' <= ch <= '8' }

  /** The cursor after an accepted board character: '/' drops a rank back to the a-file, a digit skips files, a piece one file. */
  function Advance(u: Cursor, ch: char): Cursor {
    if ch == '/' then u.(rank := u.rank - 1, file := 0)
    else if IsSkip(ch) then u.(file := u.file + (ch as int - '0' as int))
    else u.(file := u.file + 1)
  }

  /** The cursor names a square of the board. */
  predicate OnBoard(u: Cursor) {
    0 <= u.rank < 8 && 0 <= u.file < 8
  }

  /** The square under an on-board cursor. */
  function CursorSquare(u: Cursor): (s: Square)
    requires OnBoard(u)
    ensures RankOf(s) as int == u.rank && FileOf(s) as int == u.file
  {
    SquareAt(u.rank as Square, u.file as Square)
  }

  /** POS_ADD_PIECE: the piece's bit set on its board and its key toggled into the hash. */
  function AddPiece(c: Core, x: int, s: Square, z: Zobrist): Core
    requires c.WellFormed() && IsPiece(x) && z.Valid()
  {
    c.(pieces := c.pieces[x := Put(c.pieces[x], Sq64(s))], hash := Toggle(c.hash, z.Key(x, s)))
  }

  /**
   * One character of the board field: '/', a digit or a piece letter moves
   * the cursor, a piece letter placing its piece first; any other character,
   * or a piece letter whose square is off the board, stops the parse (None).
   */
  function BoardChar(c: Core, u: Cursor, ch: char, z: Zobrist): Option<(Core, Cursor)>
    requires c.WellFormed() && z.Valid()
  {
    if ch == '/' || IsSkip(ch) then Some((c, Advance(u, ch)))
    else match FenPiece(ch)
      case None => None
      case Some(x) => if OnBoard(u) then Some((AddPiece(c, x, CursorSquare(u), z), Advance(u, ch))) else None
  }

  /** What a piece letter does to the record: only its own board gains its square, and only its key joins the hash. */
  ghost predicate Added(c: Core, r: Core, x: int, s: Square, z: Zobrist)
    requires c.WellFormed() && r.WellFormed() && IsPiece(x) && z.Valid()
  {
    (forall t :: Has(r.pieces[x], t) <==> t == s || Has(c.pieces[x], t)) &&
    (forall y :: 0 <= y < 12 && y != x ==> r.pieces[y] == c.pieces[y]) &&
    r.hash == Toggle(c.hash, z.Key(x, s)) &&
    r.side == c.side && r.enpassant == c.enpassant && r.castling == c.castling
  }

  /**
   * The board field character by character: it fails exactly on a character
   * that is neither '/', a digit nor a piece letter, or on a piece letter off
   * the board; '/' moves down a rank to the a-file, a digit moves that many
   * files on, and a piece letter adds exactly its piece on the cursor's square
   * and moves one file on.
   */
  lemma BoardCharMeaning(c: Core, u: Cursor, ch: char, z: Zobrist)
    requires c.WellFormed() && z.Valid()
    ensures BoardChar(c, u, ch, z).None? <==> ch != '/' && !IsSkip(ch) && (FenPiece(ch).None? || !OnBoard(u))
    ensures ch == '/' ==> BoardChar(c, u, ch, z) == Some((c, u.(rank := u.rank - 1, file := 0)))
    ensures IsSkip(ch) ==> BoardChar(c, u, ch, z) == Some((c, u.(file := u.file + (ch as int - '0' as int))))
    ensures FenPiece(ch).Some? && OnBoard(u) ==>
      var s := CursorSquare(u);
      BoardChar(c, u, ch, z).Some? && BoardChar(c, u, ch, z).value.0.WellFormed() &&
      Added(c, BoardChar(c, u, ch, z).value.0, FenPiece(ch).value, s, z) &&
      BoardChar(c, u, ch, z).value.1 == u.(file := u.file + 1)
  {
    if FenPiece(ch).Some? && OnBoard(u) {
      var x, s := FenPiece(ch).value, CursorSquare(u);
      forall t ensures Has(Put(c.pieces[x], Sq64(s)), t) <==> t == s || Has(c.pieces[x], t) {
        SetSquareHas(c.pieces[x], s, t);
      }
    }
  }

  /**
   * The squareIndex values position_fromFen hands to POS_ADD_PIECE while it
   * reads a board field, as written: 8*rankIndex + fileIndex, with no check
   * that the file has not run past h or the rank below the first.
   */
  function PlacementAsWritten(u: Cursor, board: string): (r: seq<int>)
    ensures |r| <= |board|
    decreases |board|
  {
    if board == [] then []
    else if board[0] == '/' || IsSkip(board[0]) then PlacementAsWritten(Advance(u, board[0]), board[1..])
    else if FenPiece(board[0]).Some? then [8 * u.rank + u.file] + PlacementAsWritten(Advance(u, board[0]), board[1..])
    else []
  }

  /**
   * A piece after a full rank of digits: on the first field it is placed at
   * index 64, past h8; on the second it is placed at 56, which is a8, on the
   * rank the first field has already described.
   */
  lemma OffBoardAsWritten()
    ensures PlacementAsWritten(START, "8P") == [64]
    ensures PlacementAsWritten(START, "8/8P") == [56] && SquareAt(7, 0) as int == 56
  {
  }

  /** Every square of the board reached by the cursor is 8*rank + file, so the corrected parser places exactly where the code as written meant to. */
  lemma PlacementAgrees(u: Cursor, ch: char)
    requires OnBoard(u) && FenPiece(ch).Some?
    ensures PlacementAsWritten(u, [ch]) == [CursorSquare(u) as int]
  {
  }

  /* The side field. */

  /** The side a side-field letter names: 'w' White, any other letter Black. */
  function SideOf(ch: char): int {
    if ch == 'w' then WHITE else BLACK
  }

  /** The side field as written: each letter sets the side and toggles the side key, whatever the letter. */
  function SideCharAsWritten(c: Core, ch: char, z: Zobrist): Core {
    c.(side := SideOf(ch), hash := Toggle(c.hash, z.side))
  }

  /** The side field, corrected: the side key is toggled exactly when the side to move changes, as make-move does. */
  function SideChar(c: Core, ch: char, z: Zobrist): Core {
    c.(side := SideOf(ch), hash := if SideOf(ch) == c.side then c.hash else Toggle(c.hash, z.side))
  }

  /** The hash with the side key taken out when Black is to move. */
  function Unsided(c: Core, z: Zobrist): bv64 {
    if c.side == BLACK then Toggle(c.hash, z.side) else c.hash
  }

  /** The corrected side letter sets the side it names and leaves the hash, side key taken out, as it was. */
  lemma SideCharKeepsUnsided(c: Core, ch: char, z: Zobrist)
    requires IsSide(c.side)
    ensures SideChar(c, ch, z).side == SideOf(ch)
    ensures Unsided(SideChar(c, ch, z), z) == Unsided(c, z)
  {
  }

  /** As written, a White-to-move record reading "w" keeps its side but changes its hash. */
  lemma SideCharAsWrittenBreaks(c: Core, z: Zobrist)
    requires c.side == WHITE && z.side != 0
    ensures SideCharAsWritten(c, 'w', z).side == c.side
    ensures Unsided(SideCharAsWritten(c, 'w', z), z) != Unsided(c, z)
  {
  }

  /* The castling field. */

  /** The right a castling letter grants: K, Q, k, q; any other character none. */
  function RightOf(ch: char): bv4 {
    if ch == 'K' then W_CASTLE_K
    else if ch == 'Q' then W_CASTLE_Q
    else if ch == 'k' then B_CASTLE_K
    else if ch == 'q' then B_CASTLE_Q
    else 0
  }

  /** The castling field as written: each character adds its right, then toggles the key of the rights so far. */
  function CastlingCharAsWritten(c: Core, ch: char, z: Zobrist): Core
    requires z.Valid()
  {
    var rights := c.castling | RightOf(ch);
    c.(castling := rights, hash := Toggle(c.hash, z.CastlingKey(rights)))
  }

  /**
   * The castling field, corrected: each character adds its right; the key of
   * the rights before it is toggled out (once one is in) and that of the
   * rights after it toggled in, as make-move does.
   */
  function CastlingChar(c: Core, u: Cursor, ch: char, z: Zobrist): (Core, Cursor)
    requires z.Valid()
  {
    var rights := c.castling | RightOf(ch);
    var out := if u.castled then Toggle(c.hash, z.CastlingKey(c.castling)) else c.hash;
    (c.(castling := rights, hash := Toggle(out, z.CastlingKey(rights))), u.(castled := true))
  }

  /** The hash with the castling key of the current rights taken out, once it is in. */
  function Uncastled(c: Core, u: Cursor, z: Zobrist): bv64
    requires z.Valid()
  {
    if u.castled then Toggle(c.hash, z.CastlingKey(c.castling)) else c.hash
  }

  /** A corrected castling letter adds its right, and the hash then holds the key of the new rights exactly once over what it held without one. */
  lemma CastlingCharKeepsKey(c: Core, u: Cursor, ch: char, z: Zobrist)
    requires z.Valid()
    ensures CastlingChar(c, u, ch, z).0.castling == c.castling | RightOf(ch)
    ensures CastlingChar(c, u, ch, z).1.castled
    ensures Uncastled(CastlingChar(c, u, ch, z).0, CastlingChar(c, u, ch, z).1, z) == Uncastled(c, u, z)
  {
    var rights := c.castling | RightOf(ch);
    var out := if u.castled then Toggle(c.hash, z.CastlingKey(c.castling)) else c.hash;
    ToggleTwice(out, z.CastlingKey(rights));
  }

  lemma ToggleTwice(h: bv64, key: bv64)
    ensures Toggle(Toggle(h, key), key) == h
  {
  }

  /** The Zobrist keys of the counterexample: castling key i is i, every other key 0. */
  function CountingKeys(): (z: Zobrist)
    ensures z.Valid()
  {
    Zobrist(seq(12, x => seq(64, s => 0)), 0, seq(16, i requires 0 <= i < 16 => i as bv64), seq(64, s => 0))
  }

  /** As written, "KQ" and "QK" grant the same rights yet leave different hashes, and neither holds just the key of those rights. */
  lemma CastlingAsWrittenOrder(c: Core)
    requires c.castling == 0 && c.hash == 0
    ensures var z := CountingKeys();
      var kq := CastlingCharAsWritten(CastlingCharAsWritten(c, 'K', z), 'Q', z);
      var qk := CastlingCharAsWritten(CastlingCharAsWritten(c, 'Q', z), 'K', z);
      kq.castling == qk.castling == 3 && kq.hash == 2 && qk.hash == 1 && z.CastlingKey(3) == 3
  {
  }

  /** Corrected, both orders leave exactly the key of the rights granted, for any keys. */
  lemma CastlingOrderCorrected(c: Core, u: Cursor, z: Zobrist)
    requires z.Valid() && c.castling == 0 && !u.castled
    ensures var kq := CastlingChar(CastlingChar(c, u, 'K', z).0, CastlingChar(c, u, 'K', z).1, 'Q', z).0;
      var qk := CastlingChar(CastlingChar(c, u, 'Q', z).0, CastlingChar(c, u, 'Q', z).1, 'K', z).0;
      kq.castling == qk.castling == 3 && kq.hash == qk.hash == Toggle(c.hash, z.CastlingKey(3))
  {
    var z3 := z.CastlingKey(3);
    var k1, k2 := CastlingChar(c, u, 'K', z), CastlingChar(c, u, 'Q', z);
    CastlingCharKeepsKey(c, u, 'K', z);
    CastlingCharKeepsKey(k1.0, k1.1, 'Q', z);
    CastlingCharKeepsKey(c, u, 'Q', z);
    CastlingCharKeepsKey(k2.0, k2.1, 'K', z);
    Untoggle(CastlingChar(k1.0, k1.1, 'Q', z).0.hash, c.hash, z3);
    Untoggle(CastlingChar(k2.0, k2.1, 'K', z).0.hash, c.hash, z3);
  }

  lemma Untoggle(h: bv64, base: bv64, key: bv64)
    requires Toggle(h, key) == base
    ensures h == Toggle(base, key)
  {
  }

  /* The en-passant field. */

  /**
   * One character of the en-passant field: once a square is set the rest of
   * the field is skipped; otherwise algToBin reads this character and the
   * next, a target on rank 6 or rank 3 records the pawn's square as
   * last_double, and then the target becomes the en-passant square, its key
   * toggled in.
   */
  function EpChar(c: Core, u: Cursor, rest: string, z: Zobrist): (r: (Core, Cursor))
    requires z.Valid() && Tracked(c, u)
    ensures Tracked(r.0, r.1)
  {
    if c.enpassant.Some? then (c, u)
    else
      var target := AlgBoard(rest);
      var last := if target & RANK6 != 0 then SoutOne(target) else u.lastDouble;
      var last' := if target & RANK3 != 0 then NortOne(target) else last;
      if last' != EMPTY then
        var s := BitScanForward(target);
        (c.(enpassant := Some(s), hash := Toggle(c.hash, z.EpKey(s))), u.(lastDouble := last'))
      else
        (c, u.(lastDouble := last'))
  }

  /** The rank digits an en-passant square may carry: '3' and '6'. */
  predicate EpRank(ch: char) { ch == '3' || ch == '6' }

  /**
   * Without an en-passant square yet, a character sets one exactly when it
   * and the next name a square on rank 3 or rank 6; that square becomes the
   * en-passant square and its key joins the hash.
   */
  lemma EpCharMeaning(c: Core, u: Cursor, rest: string, z: Zobrist)
    requires z.Valid() && Tracked(c, u) && c.enpassant.None?
    ensures EpChar(c, u, rest, z).0.enpassant.Some? <==> IsFileLetter(CharAt(rest, 0)) && EpRank(CharAt(rest, 1))
    ensures EpChar(c, u, rest, z).0.enpassant.Some? ==>
      var s := NamedSquare(CharAt(rest, 0), CharAt(rest, 1));
      EpChar(c, u, rest, z).0 == c.(enpassant := Some(s), hash := Toggle(c.hash, z.EpKey(s)))
    ensures EpChar(c, u, rest, z).0.enpassant.None? ==> EpChar(c, u, rest, z).0 == c
  {
    var f, d := CharAt(rest, 0), CharAt(rest, 1);
    if IsFileLetter(f) && IsRankDigit(d) {
      EpCharOnSquare(c, u, rest, z, NamedSquare(f, d));
    }
  }

  /** A target square becomes the en-passant square exactly when it lies on rank 3 or rank 6. */
  lemma EpCharOnSquare(c: Core, u: Cursor, rest: string, z: Zobrist, s: Square)
    requires z.Valid() && Tracked(c, u) && c.enpassant.None? && AlgBoard(rest) == Sq64(s)
    ensures EpChar(c, u, rest, z).0 ==
      if RankOf(s) == 2 || RankOf(s) == 5 then c.(enpassant := Some(s), hash := Toggle(c.hash, z.EpKey(s))) else c
  {
    TargetRanks(s);
    BitScanForwardSq64(s);
  }

  /** A one-square target meets RANK6 or RANK3 exactly on those ranks, and the pawn square beside it then exists. */
  lemma TargetRanks(s: Square)
    ensures Sq64(s) & RANK6 != 0 <==> RankOf(s) == 5
    ensures Sq64(s) & RANK3 != 0 <==> RankOf(s) == 2
    ensures RankOf(s) == 5 ==> SoutOne(Sq64(s)) != 0
    ensures RankOf(s) == 2 ==> NortOne(Sq64(s)) != 0
  {
    RankConstants();
    RankBoardHas(5, s);
    RankBoardHas(2, s);
    SoutOneSq(s);
    NortOneSq(s);
    Sq64Single(s - 8);
    Sq64Single(s + 8);
  }

  /* The whole text. */

  /**
   * Character `i` of the text: a space moves to the next field; otherwise the
   * field being read decides. Only the board field can refuse a character.
   */
  function Step(c: Core, u: Cursor, fen: string, i: nat, z: Zobrist): (r: Option<(Core, Cursor)>)
    requires c.WellFormed() && z.Valid() && Tracked(c, u) && i < |fen|
    ensures r.Some? ==> r.value.0.WellFormed() && Tracked(r.value.0, r.value.1) && r.value.1.part >= u.part
    ensures r.None? <==> u.part == 0 && fen[i] != ' ' && BoardChar(c, u, fen[i], z).None?
  {
    var ch := fen[i];
    if ch == ' ' then Some((c, u.(part := u.part + 1)))
    else if u.part == 0 then BoardChar(c, u, ch, z)
    else if u.part == 1 then Some((SideChar(c, ch, z), u))
    else if u.part == 2 then Some(CastlingChar(c, u, ch, z))
    else if u.part == 3 then Some(EpChar(c, u, fen[i..], z))
    else Some((c, u))
  }

  /**
   * The parse from character `i` on: the record as the loop leaves it, and
   * whether it reached the end of the text (status 0) or stopped at a refused
   * character (status -1). Once past the board field it always reaches the end.
   */
  function Parse(c: Core, u: Cursor, fen: string, i: nat, z: Zobrist): (r: (Core, bool))
    requires c.WellFormed() && z.Valid() && Tracked(c, u) && i <= |fen|
    ensures r.0.WellFormed()
    ensures u.part > 0 ==> r.1
    decreases |fen| - i
  {
    if i == |fen| then (c, true)
    else
      match Step(c, u, fen, i, z)
      case None => (c, false)
      case Some((c', u')) => Parse(c', u', fen, i + 1, z)
  }

  /** position_fromFen on a record: the parse of the whole text from the first character. */
  function Loaded(c: Core, fen: string, z: Zobrist): (r: (Core, bool))
    requires c.WellFormed() && z.Valid()
  {
    Parse(c, START, fen, 0, z)
  }

  /** A board field that ends as soon as it starts is accepted, whatever the other fields hold. */
  lemma EmptyBoardLoads(c: Core, rest: string, z: Zobrist)
    requires c.WellFormed() && z.Valid()
    ensures Loaded(c, " " + rest, z).1
  {
    assert Step(c, START, " " + rest, 0, z) == Some((c, START.(part := 1)));
  }

  /** A text opening with a character no board field accepts is refused at once, the record untouched. */
  lemma BadFirstCharacter(c: Core, fen: string, z: Zobrist)
    requires c.WellFormed() && z.Valid()
    requires |fen| > 0 && fen[0] != ' ' && fen[0] != '/' && !IsSkip(fen[0]) && FenPiece(fen[0]).None?
    ensures Loaded(c, fen, z) == (c, false)
  {
  }

  /** The corrected parser refuses the off-board placements of OffBoardAsWritten. */
  lemma OffBoardRefused(c: Core, z: Zobrist)
    requires c.WellFormed() && z.Valid()
    ensures !Loaded(c, "8P", z).1 && !Loaded(c, "8/8P", z).1
  {
    var u1 := Advance(START, '8');
    assert Step(c, START, "8P", 0, z) == Some((c, u1));
    assert Step(c, u1, "8P", 1, z).None?;
    var u2 := Advance(u1, '/');
    assert Step(c, START, "8/8P", 0, z) == Some((c, u1));
    assert Step(c, u1, "8/8P", 1, z) == Some((c, u2));
    var u3 := Advance(u2, '8');
    assert Step(c, u2, "8/8P", 2, z) == Some((c, u3));
    assert Step(c, u3, "8/8P", 3, z).None?;
  }

  /**
   * The character loop of position_fromFen on the part of the record it
   * writes: one step per character, stopping at the first refused one.
   */
  method ParseFen(c0: Core, fen: string, z: Zobrist) returns (c: Core, ok: bool)
    requires c0.WellFormed() && z.Valid()
    ensures (c, ok) == Loaded(c0, fen, z)
  {
    c := c0;
    var u := START;
    var i := 0;
    while i < |fen|
      invariant 0 <= i <= |fen| && c.WellFormed() && Tracked(c, u)
      invariant Parse(c, u, fen, i, z) == Loaded(c0, fen, z)
      decreases |fen| - i
    {
      var next := Step(c, u, fen, i, z);
      if next.None? {
        return c, false;
      }
      c, u := next.value.0, next.value.1;
      i := i + 1;
    }
    return c, true;
  }
}
