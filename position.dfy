/**
 * The engine's global `pos` record (src/position.c) as a class whose
 * fields the routines of position.c update in place.  Each method is proved
 * against the functions of PositionSpec, Legality, MakeMove and MoveGen:
 * the record it leaves is that function of the record it found.
 *
 * The record's inline arrays (bb_pieces[12], bb_side[2], pinner[64] and
 * the two-entry attack sets) are value fields of type seq: no pointer to
 * them escapes, so assigning a new sequence is the in-place update.
 */
module Positions {
  import opened Wrappers
  import opened Bits
  import opened Pieces
  import opened Moves
  import opened Masks
  import opened Scan
  import opened MakeMove
  import opened MakeMoveInverse
  import opened PositionSpec
  import opened Legality
  import opened MoveGen
  import opened MoveLists
  import opened Fen

  /** The part of the record make-move and undo-move work on. */
  function CoreOf(v: View): Core {
    Core(v.pieces, v.side, v.enpassant, v.castling, v.hash)
  }

  /** The record with that part replaced. */
  function WithCore(v: View, c: Core): View {
    v.(pieces := c.pieces, side := c.side, enpassant := c.enpassant, castling := c.castling, hash := c.hash)
  }

  /** position_init on the zero-initialised global: no pieces, White to move, no rights, no en-passant square, hash 0. */
  function Initial(): (v: View)
    ensures v.Shaped()
  {
    View(seq(12, i => EMPTY), NO_ATTACKS, EMPTY, EMPTY, EMPTY, NoPinners(), false, false, None, 0, WHITE, 0,
         NO_ATTACKS, NO_ATTACKS, NO_ATTACKS, NO_ATTACKS, NO_ATTACKS)
  }

  /** position_makeMove: the move played on the record's core, then position_refresh. */
  function MadeView(v: View, m: Move, z: Zobrist): View
    requires v.Shaped() && Playable(CoreOf(v), m) && z.Valid()
  {
    MakeRecord(CoreOf(v), m, z);
    Refreshed(WithCore(v, Make(CoreOf(v), m, z).0))
  }

  /**
   * position_fromFen: the text read into the record's pieces, side,
   * en-passant square, rights and hash; refreshed when the whole text is
   * accepted, left as the loop stopped otherwise.
   */
  function LoadedView(v: View, fen: string, z: Zobrist): View
    requires v.Shaped() && z.Valid()
  {
    var (c, ok) := Loaded(CoreOf(v), fen, z);
    if ok then Refreshed(WithCore(v, c)) else WithCore(v, c)
  }

  /** position_undoMove: the move taken back on the record's core, then position_refresh. */
  function UnmadeView(v: View, m: Move, z: Zobrist): View
    requires v.Shaped() && Undoable(CoreOf(v), m) && z.Valid()
  {
    UndoPieces(CoreOf(v), m, z);
    Refreshed(WithCore(v, Undo(CoreOf(v), m, z)))
  }

  /** position_refresh keeps the part make-move and undo-move work on. */
  lemma CoreOfRefreshed(x: View)
    requires x.Shaped()
    ensures CoreOf(Refreshed(x)) == CoreOf(x)
  {
  }

  /** What position_refresh leaves depends only on that part. */
  lemma RefreshedByCore(a: View, b: View)
    requires a.Shaped() && b.Shaped() && CoreOf(a) == CoreOf(b)
    ensures Refreshed(a) == Refreshed(b)
  {
  }

  /**
   * Undo-move after make-move gives back the record as position_refresh
   * leaves it: the same piece boards, side, en-passant square, rights and
   * hash, with the side and occupancy boards recomputed from them.
   */
  lemma MakeThenUndo(v: View, m: Move, z: Zobrist)
    requires v.Shaped() && Fits(CoreOf(v), m) && z.Valid()
    ensures Undoable(CoreOf(MadeView(v, m, z)), Make(CoreOf(v), m, z).1)
    ensures UnmadeView(MadeView(v, m, z), Make(CoreOf(v), m, z).1, z) == Refreshed(v)
  {
    var c := CoreOf(v);
    MakeUndoInverse(c, m, z);
    MakeRecord(c, m, z);
    var made := MadeView(v, m, z);
    CoreOfRefreshed(WithCore(v, Make(c, m, z).0));
    assert CoreOf(made) == Make(c, m, z).0;
    var back := WithCore(made, Undo(Make(c, m, z).0, Make(c, m, z).1, z));
    assert CoreOf(back) == c;
    RefreshedByCore(back, v);
  }

  /** One `do { acc |= f(LS1B(xs)) } while ((xs = RESET_LS1B(xs)))` loop of genAttacks, entered only when `xs` is non-empty. */
  method OrEach(acc: Bitboard, xs: Bitboard, f: Square -> Bitboard) returns (r: Bitboard)
    ensures r == Spread(acc, xs, f)
  {
    r := acc;
    if xs != 0 {
      var rest := xs;
      while rest != 0
        invariant Spread(r, rest, f) == Spread(acc, xs, f)
        decreases PopCount(rest)
      {
        r := Join(r, f(BitScanForward(rest)));
        rest := ResetLs1b(rest);
      }
    }
  }

  /** The loop of genPinned: the pinned set and pinner[] after every pinner has been visited. */
  method PinsOf(w: View) returns (pins: Bitboard, marks: seq<Bitboard>)
    requires w.Shaped() && OurKing(w) != 0
    ensures Pins(pins, marks) == Pinned(w)
  {
    var king := BitScanForward(OurKing(w));
    var ours := OurPieces(w);
    var rest := Pinners(w);
    pins, marks := w.pinned, w.pinner;
    while rest != 0
      invariant Fold(Pins(pins, marks), rest, PinStep(ours, king)) == Pinned(w)
      decreases PopCount(rest)
    {
      var sq := BitScanForward(rest);
      var between := Masked(Obstructed(sq, king), ours);
      pins := Join(pins, between);
      if |marks| == 64 && between != 0 {
        marks := marks[BitScanForward(between) := Sq64(sq)];
      }
      rest := ResetLs1b(rest);
    }
  }

  /** The record genPinned leaves, given what its loop computed. */
  lemma WithPinsIs(w: View, pins: Bitboard, marks: seq<Bitboard>)
    requires w.Shaped() && OurKing(w) != 0 && Pins(pins, marks) == Pinned(w)
    ensures WithPins(w) == w.(pinned := pins, pinner := marks)
  {
  }

  /** The body of genAttacks on the record `v`: the five attack sets it leaves. */
  method AttackSets(v: View) returns (kings: seq<Bitboard>, knights: seq<Bitboard>, bishops: seq<Bitboard>, rooks: seq<Bitboard>, pawns: seq<Bitboard>)
    requires v.Shaped() && KingsPresent(v)
    ensures Attacked(v) == v.(kingAttacks := kings, knightsAttacks := knights, queenBishopsAttacks := bishops,
      queenRooksAttacks := rooks, pawnAttacks := pawns)
  {
    var ps, occ := v.pieces, v.occupied;
    kings := [KingMoves(BitScanForward(ps[K])), KingMoves(BitScanForward(ps[k]))];
    var nw := OrEach(v.knightsAttacks[WHITE], ps[N], KnightMoves);
    var nb := OrEach(v.knightsAttacks[BLACK], ps[n], KnightMoves);
    var qrw := OrEach(v.queenRooksAttacks[WHITE], ps[Q], RookFrom(occ));
    var qbw := OrEach(v.queenBishopsAttacks[WHITE], ps[Q], BishopFrom(occ));
    var qrb := OrEach(v.queenRooksAttacks[BLACK], ps[q], RookFrom(occ));
    var qbb := OrEach(v.queenBishopsAttacks[BLACK], ps[q], BishopFrom(occ));
    qrw := OrEach(qrw, ps[R], RookFrom(occ));
    qrb := OrEach(qrb, ps[r], RookFrom(occ));
    qbw := OrEach(qbw, ps[B], BishopFrom(occ));
    qbb := OrEach(qbb, ps[b], BishopFrom(occ));
    knights, rooks, bishops := [nw, nb], [qrw, qrb], [qbw, qbb];
    pawns := [Join(NoWeOne(ps[P]), NoEaOne(ps[P])), Join(SoWeOne(ps[p]), SoEaOne(ps[p]))];
  }

  /** position_generateMoves on a record whose side to move is in check, once genPinned and genAttacks have run. */
  lemma GeneratedInCheck(v: View)
    requires v.Shaped() && KingsPresent(v) && InCheck(Attacked(WithPins(v)))
    ensures var u := Attacked(WithPins(v)).(inCheck := true);
      KingsPresent(u) && Generate(v) == (u.(checkmated := |Evasions(u)| == 0), Evasions(u))
  {
    OurKingPresent(v);
  }

  /** position_generateMoves on a record whose side to move is not in check, once genPinned and genAttacks have run. */
  lemma GeneratedQuiet(v: View)
    requires v.Shaped() && KingsPresent(v) && !InCheck(Attacked(WithPins(v)))
    ensures var w := Attacked(WithPins(v));
      KingsPresent(w) && Generate(v) == (w.(pinned := QuietMoves(w).pinned), QuietMoves(w).moves)
  {
    OurKingPresent(v);
  }

  class Position {
    var pieces: seq<Bitboard>
    var bySide: seq<Bitboard>
    var occupied: Bitboard
    var empty: Bitboard
    var pinned: Bitboard
    var pinner: seq<Bitboard>
    var inCheck: bool
    var checkmated: bool
    var enpassant: Option<Square>
    var castling: bv4
    var side: int
    var hash: bv64
    var kingAttacks: seq<Bitboard>
    var knightsAttacks: seq<Bitboard>
    var queenBishopsAttacks: seq<Bitboard>
    var queenRooksAttacks: seq<Bitboard>
    var pawnAttacks: seq<Bitboard>

    /** The record's current contents. */
    function Snapshot(): View
      reads this
    {
      View(pieces, bySide, occupied, empty, pinned, pinner, inCheck, checkmated, enpassant, castling, side, hash,
           kingAttacks, knightsAttacks, queenBishopsAttacks, queenRooksAttacks, pawnAttacks)
    }

    /** The record has the sizes of its arrays. */
    predicate Valid()
      reads this
    {
      Snapshot().Shaped()
    }

    /** The global record, zeroed, after position_init. */
    constructor ()
      ensures Valid() && Snapshot() == Initial()
    {
      pieces := seq(12, i => EMPTY);
      bySide := NO_ATTACKS;
      occupied := EMPTY;
      empty := EMPTY;
      pinned := EMPTY;
      inCheck := false;
      checkmated := false;
      enpassant := None;
      castling := 0;
      side := WHITE;
      pinner := NoPinners();
      hash := 0;
      kingAttacks, knightsAttacks, queenBishopsAttacks, queenRooksAttacks, pawnAttacks :=
        NO_ATTACKS, NO_ATTACKS, NO_ATTACKS, NO_ATTACKS, NO_ATTACKS;
    }

    /*
     * Stores into the record, one or two fields at a time; each leaves every
     * other field as it was.
     */

    method SetBoards(ps: seq<Bitboard>)
      modifies this`pieces
      ensures Snapshot() == old(Snapshot()).(pieces := ps)
    {
      pieces := ps;
    }

    method SetTurn(s: int, ep: Option<Square>)
      modifies this`side, this`enpassant
      ensures Snapshot() == old(Snapshot()).(side := s, enpassant := ep)
    {
      side, enpassant := s, ep;
    }

    method SetRights(rights: bv4, key: bv64)
      modifies this`castling, this`hash
      ensures Snapshot() == old(Snapshot()).(castling := rights, hash := key)
    {
      castling, hash := rights, key;
    }

    method SetPins(pins: Bitboard, marks: seq<Bitboard>)
      modifies this`pinned, this`pinner
      ensures Snapshot() == old(Snapshot()).(pinned := pins, pinner := marks)
    {
      pinned, pinner := pins, marks;
    }

    method SetPinned(pins: Bitboard)
      modifies this`pinned
      ensures Snapshot() == old(Snapshot()).(pinned := pins)
    {
      pinned := pins;
    }

    method SetInCheck(check: bool)
      modifies this`inCheck
      ensures Snapshot() == old(Snapshot()).(inCheck := check)
    {
      inCheck := check;
    }

    method SetCheckmated(mate: bool)
      modifies this`checkmated
      ensures Snapshot() == old(Snapshot()).(checkmated := mate)
    {
      checkmated := mate;
    }

    method SetKingKnights(kings: seq<Bitboard>, knights: seq<Bitboard>)
      modifies this`kingAttacks, this`knightsAttacks
      ensures Snapshot() == old(Snapshot()).(kingAttacks := kings, knightsAttacks := knights)
    {
      kingAttacks, knightsAttacks := kings, knights;
    }

    method SetSliders(bishops: seq<Bitboard>, rooks: seq<Bitboard>)
      modifies this`queenBishopsAttacks, this`queenRooksAttacks
      ensures Snapshot() == old(Snapshot()).(queenBishopsAttacks := bishops, queenRooksAttacks := rooks)
    {
      queenBishopsAttacks, queenRooksAttacks := bishops, rooks;
    }

    method SetPawnAttacks(pawns: seq<Bitboard>)
      modifies this`pawnAttacks
      ensures Snapshot() == old(Snapshot()).(pawnAttacks := pawns)
    {
      pawnAttacks := pawns;
    }

    method SetSides(sides: seq<Bitboard>)
      modifies this`bySide
      ensures Snapshot() == old(Snapshot()).(bySide := sides)
    {
      bySide := sides;
    }

    method SetOccupancy(occ: Bitboard, free: Bitboard)
      modifies this`occupied, this`empty
      ensures Snapshot() == old(Snapshot()).(occupied := occ, empty := free)
    {
      occupied, empty := occ, free;
    }

    /** The first half of position_refresh: pinner[], the attack sets, the pins and the check flags cleared. */
    method ClearDerived()
      modifies this`pinned, this`pinner, this`kingAttacks, this`knightsAttacks, this`queenBishopsAttacks
      modifies this`queenRooksAttacks, this`pawnAttacks, this`inCheck, this`checkmated
      ensures Snapshot() == old(Snapshot()).(pinner := NoPinners(),
        kingAttacks := NO_ATTACKS, knightsAttacks := NO_ATTACKS, queenBishopsAttacks := NO_ATTACKS,
        queenRooksAttacks := NO_ATTACKS, pawnAttacks := NO_ATTACKS,
        pinned := EMPTY, inCheck := false, checkmated := false)
    {
      SetPins(EMPTY, NoPinners());
      SetKingKnights(NO_ATTACKS, NO_ATTACKS);
      SetSliders(NO_ATTACKS, NO_ATTACKS);
      SetPawnAttacks(NO_ATTACKS);
      SetInCheck(false);
      SetCheckmated(false);
    }

    /**
     * position_refresh: the derived fields cleared, then the side boards
     * rebuilt from the piece boards and the occupancy from them.
     */
    method Refresh()
      requires Valid()
      modifies this
      ensures Valid() && Snapshot() == Refreshed(old(Snapshot()))
    {
      ClearDerived();
      var white, black := SideBoard(pieces, WHITE), SideBoard(pieces, BLACK);
      SetSides([white, black]);
      SetOccupancy(Join(white, black), Complement(Join(white, black)));
    }

    /** genPinned: for each pinner, mark our piece between it and the king as pinned and remember its pinner. */
    method GenPinned()
      requires Valid() && OurKing(Snapshot()) != 0
      modifies this`pinned, this`pinner
      ensures Valid() && Snapshot() == WithPins(old(Snapshot()))
    {
      var pins, marks := PinsOf(Snapshot());
      WithPinsIs(Snapshot(), pins, marks);
      SetPins(pins, marks);
    }

    /**
     * genAttacks: the king and pawn attack sets assigned, the knight and
     * slider attacks of every piece ORed into theirs.
     */
    method GenAttacks()
      requires Valid() && KingsPresent(Snapshot())
      modifies this`kingAttacks, this`knightsAttacks, this`queenBishopsAttacks, this`queenRooksAttacks, this`pawnAttacks
      ensures Valid() && Snapshot() == Attacked(old(Snapshot()))
    {
      var kings, knights, bishops, rooks, pawns := AttackSets(Snapshot());
      SetKingKnights(kings, knights);
      SetSliders(bishops, rooks);
      SetPawnAttacks(pawns);
    }

    /** position_makeMove: play `m`, fill in what undo needs, and refresh. */
    method MakeMove(m: Move, z: Zobrist) returns (played: Move)
      requires Valid() && Playable(CoreOf(Snapshot()), m) && z.Valid()
      modifies this
      ensures Valid() && Snapshot() == MadeView(old(Snapshot()), m, z)
      ensures played == Make(CoreOf(old(Snapshot())), m, z).1
    {
      var c := CoreOf(Snapshot());
      MakeRecord(c, m, z);
      var (after, record) := Make(c, m, z);
      SetBoards(after.pieces);
      SetTurn(after.side, after.enpassant);
      SetRights(after.castling, after.hash);
      played := record;
      Refresh();
    }

    /** position_undoMove: take back `m` (as make-move returned it) and refresh. */
    method UndoMove(m: Move, z: Zobrist)
      requires Valid() && Undoable(CoreOf(Snapshot()), m) && z.Valid()
      modifies this
      ensures Valid() && Snapshot() == UnmadeView(old(Snapshot()), m, z)
    {
      var c := CoreOf(Snapshot());
      UndoPieces(c, m, z);
      var before := Undo(c, m, z);
      SetBoards(before.pieces);
      SetTurn(before.side, before.enpassant);
      SetRights(before.castling, before.hash);
      Refresh();
    }

    /**
     * position_fromFen: 0 with the record loaded and refreshed when every
     * character is accepted, -1 at the first refused one, with what had been
     * written up to it kept.
     */
    method FromFen(fen: string, z: Zobrist) returns (status: int)
      requires Valid() && z.Valid()
      modifies this
      ensures Valid() && Snapshot() == LoadedView(old(Snapshot()), fen, z)
      ensures status == (if Loaded(CoreOf(old(Snapshot())), fen, z).1 then 0 else -1)
    {
      var c, ok := ParseFen(CoreOf(Snapshot()), fen, z);
      SetBoards(c.pieces);
      SetTurn(c.side, c.enpassant);
      SetRights(c.castling, c.hash);
      if !ok {
        return -1;
      }
      Refresh();
      status := 0;
    }

    /** The first half of position_generateMoves: genPinned, then genAttacks. */
    method Prepare()
      requires Valid() && KingsPresent(Snapshot())
      modifies this`pinned, this`pinner, this`kingAttacks, this`knightsAttacks, this`queenBishopsAttacks
      modifies this`queenRooksAttacks, this`pawnAttacks
      ensures Valid() && KingsPresent(Snapshot()) && Snapshot() == Attacked(WithPins(old(Snapshot())))
    {
      OurKingPresent(Snapshot());
      GenPinned();
      GenAttacks();
    }

    /** The in-check branch of position_generateMoves: in_check set, the evasions written, checkmated when there are none. */
    method Evade(list: array<Move>) returns (count: nat)
      requires Valid() && KingsPresent(Snapshot())
      requires |Evasions(Snapshot().(inCheck := true))| <= list.Length
      modifies this`inCheck, this`checkmated, list
      ensures Snapshot() == old(Snapshot()).(inCheck := true).(checkmated := count == 0)
      ensures count <= list.Length && list[..count] == Evasions(old(Snapshot()).(inCheck := true))
    {
      var w := Snapshot().(inCheck := true);
      OurKingPresent(w);
      SetInCheck(true);
      assert this as object != list;
      count := CheckEvasions(w, list);
      label Listed:
      SetCheckmated(count == 0);
      assert unchanged@Listed(list);
    }

    /** The other branch of position_generateMoves: the ordinary moves written, the pinned set as their generation leaves it. */
    method Quiet(list: array<Move>) returns (count: nat)
      requires Valid() && KingsPresent(Snapshot())
      requires |QuietMoves(Snapshot()).moves| <= list.Length
      modifies this`pinned, list
      ensures Snapshot() == old(Snapshot()).(pinned := QuietMoves(old(Snapshot())).pinned)
      ensures count <= list.Length && list[..count] == QuietMoves(old(Snapshot())).moves
    {
      var w := Snapshot();
      OurKingPresent(w);
      assert this as object != list;
      var newPinned;
      count, newPinned := QuietMoveList(w, list);
      label Listed:
      SetPinned(newPinned);
      assert unchanged@Listed(list);
    }

    /** position_generateMoves from the point where genPinned and genAttacks have run on `v` and the side to move is in check. */
    method GenerateEvasions(list: array<Move>, ghost v: View) returns (count: nat)
      requires v.Shaped() && KingsPresent(v) && InCheck(Attacked(WithPins(v)))
      requires Valid() && Snapshot() == Attacked(WithPins(v)) && |Generate(v).1| <= list.Length
      modifies this`inCheck, this`checkmated, list
      ensures Valid() && Snapshot() == Generate(v).0
      ensures count <= list.Length && list[..count] == Generate(v).1
    {
      GeneratedInCheck(v);
      ghost var u := Snapshot().(inCheck := true);
      assert |Evasions(u)| <= list.Length;
      count := Evade(list);
      assert count == |Evasions(u)|;
    }

    /** position_generateMoves from the point where genPinned and genAttacks have run on `v` and the side to move is not in check. */
    method GenerateQuiet(list: array<Move>, ghost v: View) returns (count: nat)
      requires v.Shaped() && KingsPresent(v) && !InCheck(Attacked(WithPins(v)))
      requires Valid() && Snapshot() == Attacked(WithPins(v)) && |Generate(v).1| <= list.Length
      modifies this`pinned, list
      ensures Valid() && Snapshot() == Generate(v).0
      ensures count <= list.Length && list[..count] == Generate(v).1
    {
      GeneratedQuiet(v);
      count := Quiet(list);
    }

    /**
     * position_generateMoves: genPinned, genAttacks, then the evasions
     * (setting in_check, and checkmated when there are none) or the
     * ordinary moves, written into `list`; returns how many.
     */
    method GenerateMoves(list: array<Move>) returns (count: nat)
      requires Valid() && KingsPresent(Snapshot()) && |Generate(Snapshot()).1| <= list.Length
      modifies this, list
      ensures Valid() && Snapshot() == Generate(old(Snapshot())).0
      ensures count <= list.Length && list[..count] == Generate(old(Snapshot())).1
    {
      ghost var v := Snapshot();
      assert this as object != list;
      Prepare();
      if InCheck(Snapshot()) {
        count := GenerateEvasions(list, v);
        return;
      }
      count := GenerateQuiet(list, v);
    }
  }
}
