/**
 * The loops of position_generateMoves and genCheckEvasions
 * (src/position.c) that write moves into the caller's array.  Each loop
 * walks a bitboard lowest square first, as the function it is proved
 * against folds over it; `count` is movelistcount.
 *
 * Every loop keeps the same invariant: what the loop would still add to
 * the list written so far is the list the function computes.  Room in the
 * array follows from the list only ever growing.
 */
module MoveLists {
  import opened Wrappers
  import opened Bits
  import opened Pieces
  import opened Moves
  import opened Masks
  import opened Scan
  import opened PositionSpec
  import opened Legality
  import opened MoveGen

  /* ---------------------------------------------------------------- */
  /* listAdd and addPromotionMoves                                    */
  /* ---------------------------------------------------------------- */

  /** listAdd: write the move into the next free slot. */
  method ListAdd(list: array<Move>, count: nat, from: Square, to: Square, flags: MoveFlags) returns (next: nat)
    requires count < list.Length
    modifies list
    ensures next == count + 1 && list[..next] == Add(old(list[..count]), from, to, flags)
  {
    list[count] := NewMove(from, to, flags);
    next := count + 1;
    assert list[..next] == list[..count] + [NewMove(from, to, flags)];
  }

  /** addPromotionMoves: the four promotions, queen first. */
  method AddPromotions(list: array<Move>, count: nat, from: Square, to: Square, base: MoveFlags) returns (next: nat)
    requires count + 4 <= list.Length
    modifies list
    ensures next == count + 4 && list[..next] == old(list[..count]) + Promotions(from, to, base)
  {
    var fs := PromotionFlags(base);
    next := ListAdd(list, count, from, to, fs[0]);
    next := ListAdd(list, next, from, to, fs[1]);
    next := ListAdd(list, next, from, to, fs[2]);
    next := ListAdd(list, next, from, to, fs[3]);
  }

  /* ---------------------------------------------------------------- */
  /* Growth                                                           */
  /* ---------------------------------------------------------------- */

  /** A step that never shortens the list. */
  ghost predicate Grows(step: (seq<Move>, Square) -> seq<Move>) {
    forall a: seq<Move>, s: Square :: |step(a, s)| >= |a|
  }

  /** A loop of steps that never shorten the list never shortens it. */
  lemma {:induction false} FoldGrows(acc: seq<Move>, xs: Bitboard, step: (seq<Move>, Square) -> seq<Move>)
    requires Grows(step)
    ensures |Fold(acc, xs, step)| >= |acc|
    decreases PopCount(xs)
  {
    if xs != 0 {
      FoldGrows(step(acc, BitScanForward(xs)), ResetLs1b(xs), step);
    }
  }

  /** The same for the pawn-push loop, whose state also carries `pinned`. */
  lemma {:induction false} GenFoldGrows(acc: Gen, xs: Bitboard, step: (Gen, Square) -> Gen)
    requires forall a: Gen, s: Square :: |step(a, s).moves| >= |a.moves|
    ensures |Fold(acc, xs, step).moves| >= |acc.moves|
    decreases PopCount(xs)
  {
    if xs != 0 {
      GenFoldGrows(step(acc, BitScanForward(xs)), ResetLs1b(xs), step);
    }
  }

  /**
   * One turn of a bitboard loop: the loop from `acc` over `xs` is the step
   * at the lowest square followed by the loop over the rest, so the list
   * after the step is no longer than the loop's result.
   */
  lemma Turn(acc: seq<Move>, xs: Bitboard, step: (seq<Move>, Square) -> seq<Move>)
    requires xs != 0 && Grows(step)
    ensures Fold(acc, xs, step) == Fold(step(acc, BitScanForward(xs)), ResetLs1b(xs), step)
    ensures |step(acc, BitScanForward(xs))| <= |Fold(acc, xs, step)|
  {
    FoldGrows(step(acc, BitScanForward(xs)), ResetLs1b(xs), step);
  }

  lemma PromotionsGrow(ms: seq<Move>, from: Square, to: Square, base: MoveFlags)
    ensures |ms + Promotions(from, to, base)| == |ms| + 4
  {
    PromotionsFour(from, to, base);
  }

  lemma TargetStepGrows(w: View, from: Square, ep: Bitboard)
    requires w.Shaped()
    ensures Grows(TargetStep(w, from, ep))
  {
    forall a: seq<Move>, s: Square ensures |TargetStep(w, from, ep)(a, s)| >= |a| {
      PromotionsGrow(a, from, s, CAPTURE);
      var r := TargetStep(w, from, ep)(a, s);
      assert r == a || r == a + Promotions(from, s, CAPTURE) || r == Add(a, from, s, EP_CAPTURE) ||
             r == Add(a, from, s, CAPTURE) || r == Add(a, from, s, NORMAL);
    }
  }

  lemma PieceStepGrows(w: View)
    requires w.Shaped()
    ensures Grows(PieceStep(w))
  {
    TargetStepGrows(w, 0, EpBoard(w));
    forall a: seq<Move>, s: Square ensures |PieceStep(w)(a, s)| >= |a| {
      TargetStepGrows(w, s, EpBoard(w));
      FoldGrows(a, Targets(w, s), TargetStep(w, s, EpBoard(w)));
    }
  }

  lemma SingleStepGrows(w: View)
    requires w.Shaped()
    ensures forall a: Gen, s: Square :: |SingleStep(w)(a, s).moves| >= |a.moves|
  {
    forall a: Gen, s: Square ensures |SingleStep(w)(a, s).moves| >= |a.moves| {
      PromotionsGrow(a.moves, PushFrom(w.side, s, 8), s, NORMAL);
    }
  }

  lemma DoubleStepGrows(pinned: Bitboard, side: int)
    ensures Grows(DoubleStep(pinned, side))
  {
    forall a: seq<Move>, s: Square ensures |DoubleStep(pinned, side)(a, s)| >= |a| {
    }
  }

  lemma CaptureStepGrows(w: View, checkers: Bitboard)
    requires w.Shaped()
    ensures Grows(CaptureStep(w, checkers))
  {
    forall a: seq<Move>, s: Square ensures |CaptureStep(w, checkers)(a, s)| >= |a| {
      var to := Masked(AttacksFrom(w.pieces, w.occupied, s), checkers);
      if to != 0 {
        PromotionsGrow(a, s, BitScanForward(to), CAPTURE);
        var r := CaptureStep(w, checkers)(a, s);
        assert r == a || r == a + Promotions(s, BitScanForward(to), CAPTURE) || r == Add(a, s, BitScanForward(to), CAPTURE);
      } else {
        assert CaptureStep(w, checkers)(a, s) == a;
      }
    }
  }

  lemma BlockPushStepGrows(w: View, between: Bitboard)
    requires w.Shaped()
    ensures Grows(BlockPushStep(w, between))
  {
    forall a: seq<Move>, s: Square ensures |BlockPushStep(w, between)(a, s)| >= |a| {
      PromotionsGrow(a, PushFrom(w.side, s, 8), s, NORMAL);
    }
  }

  lemma BlockDoubleStepGrows(w: View, between: Bitboard)
    requires w.Shaped()
    ensures Grows(BlockDoubleStep(w, between))
  {
    forall a: seq<Move>, s: Square ensures |BlockDoubleStep(w, between)(a, s)| >= |a| {
    }
  }

  lemma BlockerStepGrows(w: View, to: Square)
    requires w.Shaped()
    ensures Grows(BlockerStep(w, to))
  {
    forall a: seq<Move>, s: Square ensures |BlockerStep(w, to)(a, s)| >= |a| {
    }
  }

  lemma BlockStepGrows(w: View)
    requires w.Shaped()
    ensures Grows(BlockStep(w))
  {
    forall a: seq<Move>, s: Square ensures |BlockStep(w)(a, s)| >= |a| {
      BlockerStepGrows(w, s);
      FoldGrows(a, Masked(AttackersTo(w, s), Officers(w)), BlockerStep(w, s));
    }
  }

  lemma KingStepGrows(w: View, king: Square)
    requires w.Shaped()
    ensures Grows(KingStep(w, king))
  {
    forall a: seq<Move>, s: Square ensures |KingStep(w, king)(a, s)| >= |a| {
      if CanMove(w, king, s) {
        assert KingStep(w, king)(a, s) == Add(a, king, s, if Has(OtherPieces(w), s) then CAPTURE else NORMAL);
      } else {
        assert KingStep(w, king)(a, s) == a;
      }
    }
  }

  /* ---------------------------------------------------------------- */
  /* Moves when not in check                                          */
  /* ---------------------------------------------------------------- */

  /** The body of the inner loop of position_generateMoves: one target `to` of the piece on `from`. */
  method TargetMove(w: View, from: Square, ep: Bitboard, to: Square, list: array<Move>, count: nat) returns (next: nat)
    requires w.Shaped() && count <= list.Length && |TargetStep(w, from, ep)(list[..count], to)| <= list.Length
    modifies list
    ensures next <= list.Length && list[..next] == TargetStep(w, from, ep)(old(list[..count]), to)
  {
    ghost var ms := list[..count];
    next := count;
    var legal := CanMove(w, from, to);
    if !legal {
      assert TargetStep(w, from, ep)(ms, to) == ms;
    } else if ep != 0 && Sq64(to) == ep && Has(OurPawns(w), from) && CanTakeEp(w, from, to) {
      assert TargetStep(w, from, ep)(ms, to) == Add(ms, from, to, EP_CAPTURE);
      next := ListAdd(list, next, from, to, EP_CAPTURE);
    } else if Has(OtherPieces(w), to) {
      if Has(OurPawns(w), from) && Has(RANK18, to) {
        assert TargetStep(w, from, ep)(ms, to) == ms + Promotions(from, to, CAPTURE);
        PromotionsGrow(ms, from, to, CAPTURE);
        next := AddPromotions(list, next, from, to, CAPTURE);
      } else {
        assert TargetStep(w, from, ep)(ms, to) == Add(ms, from, to, CAPTURE);
        next := ListAdd(list, next, from, to, CAPTURE);
      }
    } else if !Has(OurPawns(w), from) {
      assert TargetStep(w, from, ep)(ms, to) == Add(ms, from, to, NORMAL);
      next := ListAdd(list, next, from, to, NORMAL);
    } else {
      assert TargetStep(w, from, ep)(ms, to) == ms;
    }
  }

  /** The inner loop over the targets of the piece on `from`. */
  method TargetMoves(w: View, from: Square, ep: Bitboard, list: array<Move>, count: nat) returns (next: nat)
    requires w.Shaped() && count <= list.Length
    requires |Fold(list[..count], Targets(w, from), TargetStep(w, from, ep))| <= list.Length
    modifies list
    ensures next <= list.Length && list[..next] == Fold(old(list[..count]), Targets(w, from), TargetStep(w, from, ep))
  {
    ghost var goal := Fold(list[..count], Targets(w, from), TargetStep(w, from, ep));
    TargetStepGrows(w, from, ep);
    var moves := Targets(w, from);
    next := count;
    while moves != 0
      invariant next <= list.Length && Fold(list[..next], moves, TargetStep(w, from, ep)) == goal
      decreases PopCount(moves)
    {
      var to := BitScanForward(moves);
      Turn(list[..next], moves, TargetStep(w, from, ep));
      next := TargetMove(w, from, ep, to, list, next);
      moves := ResetLs1b(moves);
    }
  }

  /** The outer loop over our pieces. */
  method PieceMoves(w: View, list: array<Move>) returns (count: nat)
    requires w.Shaped() && |Fold([], OurPieces(w), PieceStep(w))| <= list.Length
    modifies list
    ensures count <= list.Length && list[..count] == Fold([], OurPieces(w), PieceStep(w))
  {
    ghost var goal := Fold([], OurPieces(w), PieceStep(w));
    PieceStepGrows(w);
    var ep := EpBoard(w);
    var pieces := OurPieces(w);
    count := 0;
    assert list[..0] == [];
    while pieces != 0
      invariant count <= list.Length && Fold(list[..count], pieces, PieceStep(w)) == goal
      decreases PopCount(pieces)
    {
      var from := BitScanForward(pieces);
      Turn(list[..count], pieces, PieceStep(w));
      count := TargetMoves(w, from, ep, list, count);
      pieces := ResetLs1b(pieces);
    }
  }

  /** The castling block: king side, then queen side. */
  method CastleMoves(w: View, list: array<Move>, count: nat) returns (next: nat)
    requires w.Shaped() && OurKing(w) != 0 && count <= list.Length
    requires |list[..count] + Castles(w)| <= list.Length
    modifies list
    ensures next <= list.Length && list[..next] == old(list[..count]) + Castles(w)
  {
    next := count;
    if w.castling & (RightBit(w.side, true) | RightBit(w.side, false)) != 0 {
      var from := BitScanForward(OurKing(w));
      if Castle(w, from, true) != [] {
        next := ListAdd(list, next, from, CastleTarget(w.side, true), CASTLE_KS);
      }
      if Castle(w, from, false) != [] {
        next := ListAdd(list, next, from, CastleTarget(w.side, false), CASTLE_QS);
      }
    }
  }

  /** The body of the single-push loop. */
  method SinglePush(w: View, to: Square, list: array<Move>, count: nat, pinned: Bitboard) returns (next: nat, pinnedAfter: Bitboard)
    requires w.Shaped() && count <= list.Length && |SingleStep(w)(Gen(list[..count], pinned), to).moves| <= list.Length
    modifies list
    ensures next <= list.Length && Gen(list[..next], pinnedAfter) == SingleStep(w)(Gen(old(list[..count]), pinned), to)
  {
    var from := PushFrom(w.side, to, 8);
    next, pinnedAfter := count, pinned;
    if Has(pinned, from) && CanMove(w.(pinned := pinned), from, to) {
      pinnedAfter := Flip(pinned, Sq64(from));
    }
    if !Has(pinnedAfter, from) {
      if Has(RANK18, to) {
        PromotionsGrow(list[..count], from, to, NORMAL);
        next := AddPromotions(list, next, from, to, NORMAL);
      } else {
        next := ListAdd(list, next, from, to, NORMAL);
      }
    }
  }

  /** The single-push loop; a pinned pawn free to push along its pin is unpinned on the way. */
  method SinglePushMoves(w: View, list: array<Move>, count: nat) returns (next: nat, pinned: Bitboard)
    requires w.Shaped() && count <= list.Length
    requires |Fold(Gen(list[..count], w.pinned), SinglePushes(w), SingleStep(w)).moves| <= list.Length
    modifies list
    ensures next <= list.Length
    ensures Gen(list[..next], pinned) == Fold(Gen(old(list[..count]), w.pinned), SinglePushes(w), SingleStep(w))
  {
    ghost var goal := Fold(Gen(list[..count], w.pinned), SinglePushes(w), SingleStep(w));
    SingleStepGrows(w);
    var pushes := SinglePushes(w);
    next, pinned := count, w.pinned;
    while pushes != 0
      invariant next <= list.Length && Fold(Gen(list[..next], pinned), pushes, SingleStep(w)) == goal
      decreases PopCount(pushes)
    {
      var to := BitScanForward(pushes);
      GenFoldGrows(SingleStep(w)(Gen(list[..next], pinned), to), ResetLs1b(pushes), SingleStep(w));
      next, pinned := SinglePush(w, to, list, next, pinned);
      pushes := ResetLs1b(pushes);
    }
  }

  /** The body of the double-push loop. */
  method DoublePush(pinned: Bitboard, side: int, to: Square, list: array<Move>, count: nat) returns (next: nat)
    requires count <= list.Length && |DoubleStep(pinned, side)(list[..count], to)| <= list.Length
    modifies list
    ensures next <= list.Length && list[..next] == DoubleStep(pinned, side)(old(list[..count]), to)
  {
    ghost var ms := list[..count];
    var from := PushFrom(side, to, 16);
    next := count;
    if !Has(pinned, from) {
      assert DoubleStep(pinned, side)(ms, to) == Add(ms, from, to, PAWN_DOUBLE);
      next := ListAdd(list, next, from, to, PAWN_DOUBLE);
    } else {
      assert DoubleStep(pinned, side)(ms, to) == ms;
    }
  }

  /** The double-push loop, for pawns not pinned after the single pushes. */
  method DoublePushMoves(w: View, pinned: Bitboard, list: array<Move>, count: nat) returns (next: nat)
    requires w.Shaped() && count <= list.Length
    requires |Fold(list[..count], DoublePushes(w), DoubleStep(pinned, w.side))| <= list.Length
    modifies list
    ensures next <= list.Length && list[..next] == Fold(old(list[..count]), DoublePushes(w), DoubleStep(pinned, w.side))
  {
    ghost var goal := Fold(list[..count], DoublePushes(w), DoubleStep(pinned, w.side));
    DoubleStepGrows(pinned, w.side);
    var pushes := DoublePushes(w);
    next := count;
    while pushes != 0
      invariant next <= list.Length && Fold(list[..next], pushes, DoubleStep(pinned, w.side)) == goal
      decreases PopCount(pushes)
    {
      var to := BitScanForward(pushes);
      Turn(list[..next], pushes, DoubleStep(pinned, w.side));
      next := DoublePush(pinned, w.side, to, list, next);
      pushes := ResetLs1b(pushes);
    }
  }

  /** Each stage of the ordinary generation only lengthens the list. */
  lemma QuietGrows(w: View)
    requires w.Shaped() && OurKing(w) != 0
    ensures var start := Gen(Fold([], OurPieces(w), PieceStep(w)) + Castles(w), w.pinned);
      var singles := Fold(start, SinglePushes(w), SingleStep(w));
      |start.moves| <= |singles.moves| <= |QuietMoves(w).moves|
  {
    var start := Gen(Fold([], OurPieces(w), PieceStep(w)) + Castles(w), w.pinned);
    var singles := Fold(start, SinglePushes(w), SingleStep(w));
    SingleStepGrows(w);
    GenFoldGrows(start, SinglePushes(w), SingleStep(w));
    DoubleStepGrows(singles.pinned, w.side);
    FoldGrows(singles.moves, DoublePushes(w), DoubleStep(singles.pinned, w.side));
  }

  /** The part of position_generateMoves after the check test: piece moves, castles, single then double pushes. */
  method QuietMoveList(w: View, list: array<Move>) returns (count: nat, pinned: Bitboard)
    requires w.Shaped() && OurKing(w) != 0 && |QuietMoves(w).moves| <= list.Length
    modifies list
    ensures count <= list.Length && list[..count] == QuietMoves(w).moves && pinned == QuietMoves(w).pinned
  {
    QuietGrows(w);
    count := PieceMoves(w, list);
    count := CastleMoves(w, list, count);
    count, pinned := SinglePushMoves(w, list, count);
    count := DoublePushMoves(w, pinned, list, count);
  }

  /* ---------------------------------------------------------------- */
  /* Moves out of check                                               */
  /* ---------------------------------------------------------------- */

  /** One en-passant capture by the pawn on `pawns` beside the checker, if it may take. */
  method EpTake(w: View, pawns: Bitboard, ep: Square, takers: Bitboard, list: array<Move>, count: nat) returns (next: nat, rest: Bitboard)
    requires w.Shaped() && count <= list.Length && |EpTry(w, list[..count], takers, pawns, ep).0| <= list.Length
    modifies list
    ensures next <= list.Length && (list[..next], rest) == EpTry(w, old(list[..count]), takers, pawns, ep)
  {
    next, rest := count, takers;
    if pawns != 0 && CanMove(w, BitScanForward(pawns), ep) {
      next := ListAdd(list, next, BitScanForward(pawns), ep, EP_CAPTURE);
      rest := Flip(rest, pawns);
    }
  }

  /** The en-passant captures of the checking pawn; returns the takers still to try. */
  method EpMoves(w: View, list: array<Move>, checkers: Bitboard, takers: Bitboard) returns (count: nat, rest: Bitboard)
    requires w.Shaped() && |EpEvasions(w, checkers, takers).0| <= list.Length
    modifies list
    ensures count <= list.Length && (list[..count], rest) == EpEvasions(w, checkers, takers)
  {
    count, rest := 0, takers;
    assert list[..0] == [];
    if w.enpassant.Some? && !Disjoint(checkers, OtherPawns(w)) {
      var ep := w.enpassant.value;
      var west := Masked(WestOne(checkers), OurPawns(w));
      var east := Masked(EastOne(checkers), OurPawns(w));
      ghost var first := EpTry(w, [], takers, west, ep);
      assert |EpTry(w, first.0, first.1, east, ep).0| >= |first.0|;
      count, rest := EpTake(w, west, ep, rest, list, count);
      count, rest := EpTake(w, east, ep, rest, list, count);
    }
  }

  /** The body of the capture loop: our piece on `from` takes the checker. */
  method CaptureMove(w: View, checkers: Bitboard, from: Square, list: array<Move>, count: nat) returns (next: nat)
    requires w.Shaped() && count <= list.Length && |CaptureStep(w, checkers)(list[..count], from)| <= list.Length
    modifies list
    ensures next <= list.Length && list[..next] == CaptureStep(w, checkers)(old(list[..count]), from)
  {
    next := count;
    var to := Masked(AttacksFrom(w.pieces, w.occupied, from), checkers);
    CaptureCases(w, checkers, list[..count], from);
    if to != 0 && CanMove(w, from, BitScanForward(to)) {
      var dest := BitScanForward(to);
      if Has(OurPawns(w), from) && !Disjoint(RANK18, to) {
        next := CapturePromotions(w, checkers, from, dest, list, next);
      } else {
        next := ListAdd(list, next, from, dest, CAPTURE);
      }
    }
  }

  /** The three outcomes of a capture step. */
  lemma CaptureCases(w: View, checkers: Bitboard, ms: seq<Move>, from: Square)
    requires w.Shaped()
    ensures var to := Masked(AttacksFrom(w.pieces, w.occupied, from), checkers);
      && (to == 0 || !CanMove(w, from, BitScanForward(to)) ==> CaptureStep(w, checkers)(ms, from) == ms)
      && (to != 0 && CanMove(w, from, BitScanForward(to)) && Has(OurPawns(w), from) && !Disjoint(RANK18, to) ==>
            CaptureStep(w, checkers)(ms, from) == ms + Promotions(from, BitScanForward(to), CAPTURE))
      && (to != 0 && CanMove(w, from, BitScanForward(to)) && !(Has(OurPawns(w), from) && !Disjoint(RANK18, to)) ==>
            CaptureStep(w, checkers)(ms, from) == Add(ms, from, BitScanForward(to), CAPTURE))
  {
  }

  /** A pawn's capture of the checker on the last rank: four promotions. */
  method CapturePromotions(w: View, checkers: Bitboard, from: Square, dest: Square, list: array<Move>, count: nat) returns (next: nat)
    requires w.Shaped() && count <= list.Length && |list[..count] + Promotions(from, dest, CAPTURE)| <= list.Length
    modifies list
    ensures next <= list.Length && list[..next] == old(list[..count]) + Promotions(from, dest, CAPTURE)
  {
    PromotionsGrow(list[..count], from, dest, CAPTURE);
    next := AddPromotions(list, count, from, dest, CAPTURE);
  }

  /** The capture loop over our other pieces attacking the checker. */
  method CaptureMoves(w: View, checkers: Bitboard, takers: Bitboard, list: array<Move>, count: nat) returns (next: nat)
    requires w.Shaped() && count <= list.Length
    requires |Fold(list[..count], takers, CaptureStep(w, checkers))| <= list.Length
    modifies list
    ensures next <= list.Length && list[..next] == Fold(old(list[..count]), takers, CaptureStep(w, checkers))
  {
    ghost var goal := Fold(list[..count], takers, CaptureStep(w, checkers));
    CaptureStepGrows(w, checkers);
    var attackers := takers;
    next := count;
    while attackers != 0
      invariant next <= list.Length && Fold(list[..next], attackers, CaptureStep(w, checkers)) == goal
      decreases PopCount(attackers)
    {
      var from := BitScanForward(attackers);
      Turn(list[..next], attackers, CaptureStep(w, checkers));
      next := CaptureMove(w, checkers, from, list, next);
      attackers := ResetLs1b(attackers);
    }
  }

  /** The body of the blocking single-push loop. */
  method BlockPush(w: View, between: Bitboard, to: Square, list: array<Move>, count: nat) returns (next: nat)
    requires w.Shaped() && count <= list.Length && |BlockPushStep(w, between)(list[..count], to)| <= list.Length
    modifies list
    ensures next <= list.Length && list[..next] == BlockPushStep(w, between)(old(list[..count]), to)
  {
    next := count;
    var from := PushFrom(w.side, to, 8);
    if Has(between, to) && CanMove(w, from, to) {
      if Has(RANK18, to) {
        PromotionsGrow(list[..count], from, to, NORMAL);
        next := AddPromotions(list, next, from, to, NORMAL);
      } else {
        next := ListAdd(list, next, from, to, NORMAL);
      }
    }
  }

  /** The single pushes onto the checking line. */
  method BlockPushMoves(w: View, between: Bitboard, list: array<Move>, count: nat) returns (next: nat)
    requires w.Shaped() && count <= list.Length
    requires |Fold(list[..count], SinglePushes(w), BlockPushStep(w, between))| <= list.Length
    modifies list
    ensures next <= list.Length && list[..next] == Fold(old(list[..count]), SinglePushes(w), BlockPushStep(w, between))
  {
    ghost var goal := Fold(list[..count], SinglePushes(w), BlockPushStep(w, between));
    BlockPushStepGrows(w, between);
    var pushes := SinglePushes(w);
    next := count;
    while pushes != 0
      invariant next <= list.Length && Fold(list[..next], pushes, BlockPushStep(w, between)) == goal
      decreases PopCount(pushes)
    {
      var to := BitScanForward(pushes);
      Turn(list[..next], pushes, BlockPushStep(w, between));
      next := BlockPush(w, between, to, list, next);
      pushes := ResetLs1b(pushes);
    }
  }

  /** The body of the blocking double-push loop. */
  method BlockDouble(w: View, between: Bitboard, to: Square, list: array<Move>, count: nat) returns (next: nat)
    requires w.Shaped() && count <= list.Length && |BlockDoubleStep(w, between)(list[..count], to)| <= list.Length
    modifies list
    ensures next <= list.Length && list[..next] == BlockDoubleStep(w, between)(old(list[..count]), to)
  {
    ghost var ms := list[..count];
    var from := PushFrom(w.side, to, 16);
    next := count;
    if Has(between, to) && CanMove(w, from, to) {
      assert BlockDoubleStep(w, between)(ms, to) == Add(ms, from, to, PAWN_DOUBLE);
      next := ListAdd(list, next, from, to, PAWN_DOUBLE);
    } else {
      assert BlockDoubleStep(w, between)(ms, to) == ms;
    }
  }

  /** The double pushes onto the checking line. */
  method BlockDoubleMoves(w: View, between: Bitboard, list: array<Move>, count: nat) returns (next: nat)
    requires w.Shaped() && count <= list.Length
    requires |Fold(list[..count], DoublePushes(w), BlockDoubleStep(w, between))| <= list.Length
    modifies list
    ensures next <= list.Length && list[..next] == Fold(old(list[..count]), DoublePushes(w), BlockDoubleStep(w, between))
  {
    ghost var goal := Fold(list[..count], DoublePushes(w), BlockDoubleStep(w, between));
    BlockDoubleStepGrows(w, between);
    var pushes := DoublePushes(w);
    next := count;
    while pushes != 0
      invariant next <= list.Length && Fold(list[..next], pushes, BlockDoubleStep(w, between)) == goal
      decreases PopCount(pushes)
    {
      var to := BitScanForward(pushes);
      Turn(list[..next], pushes, BlockDoubleStep(w, between));
      next := BlockDouble(w, between, to, list, next);
      pushes := ResetLs1b(pushes);
    }
  }

  /** The body of the inner blocking loop: the officer on `from` moves to `to` if it may. */
  method BlockerMove(w: View, to: Square, from: Square, list: array<Move>, count: nat) returns (next: nat)
    requires w.Shaped() && count <= list.Length && |BlockerStep(w, to)(list[..count], from)| <= list.Length
    modifies list
    ensures next <= list.Length && list[..next] == BlockerStep(w, to)(old(list[..count]), from)
  {
    ghost var ms := list[..count];
    next := count;
    if CanMove(w, from, to) {
      assert BlockerStep(w, to)(ms, from) == Add(ms, from, to, NORMAL);
      next := ListAdd(list, next, from, to, NORMAL);
    } else {
      assert BlockerStep(w, to)(ms, from) == ms;
    }
  }

  /** The inner blocking loop: every officer of ours attacking `to` that may move there. */
  method BlockerMoves(w: View, to: Square, list: array<Move>, count: nat) returns (next: nat)
    requires w.Shaped() && count <= list.Length
    requires |Fold(list[..count], Masked(AttackersTo(w, to), Officers(w)), BlockerStep(w, to))| <= list.Length
    modifies list
    ensures next <= list.Length
    ensures list[..next] == Fold(old(list[..count]), Masked(AttackersTo(w, to), Officers(w)), BlockerStep(w, to))
  {
    ghost var goal := Fold(list[..count], Masked(AttackersTo(w, to), Officers(w)), BlockerStep(w, to));
    BlockerStepGrows(w, to);
    var blockers := Masked(AttackersTo(w, to), Officers(w));
    next := count;
    while blockers != 0
      invariant next <= list.Length && Fold(list[..next], blockers, BlockerStep(w, to)) == goal
      decreases PopCount(blockers)
    {
      var from := BitScanForward(blockers);
      Turn(list[..next], blockers, BlockerStep(w, to));
      next := BlockerMove(w, to, from, list, next);
      blockers := ResetLs1b(blockers);
    }
  }

  /** The outer blocking loop over the squares between checker and king. */
  method BlockMoves(w: View, between: Bitboard, list: array<Move>, count: nat) returns (next: nat)
    requires w.Shaped() && count <= list.Length
    requires |Fold(list[..count], between, BlockStep(w))| <= list.Length
    modifies list
    ensures next <= list.Length && list[..next] == Fold(old(list[..count]), between, BlockStep(w))
  {
    ghost var goal := Fold(list[..count], between, BlockStep(w));
    BlockStepGrows(w);
    var squares := between;
    next := count;
    while squares != 0
      invariant next <= list.Length && Fold(list[..next], squares, BlockStep(w)) == goal
      decreases PopCount(squares)
    {
      var to := BitScanForward(squares);
      Turn(list[..next], squares, BlockStep(w));
      next := BlockerMoves(w, to, list, next);
      squares := ResetLs1b(squares);
    }
  }

  /** Each stage of parts 1 and 2 only lengthens the list. */
  lemma CaptureOrBlockGrows(w: View, king: Square, checkers: Bitboard, checker: Square)
    requires w.Shaped()
    ensures var ep := EpEvasions(w, checkers, CheckerTakers(w, checker));
      var captures := Fold(ep.0, ep.1, CaptureStep(w, checkers));
      var between := Obstructed(checker, king);
      var singles := Fold(captures, SinglePushes(w), BlockPushStep(w, between));
      var doubles := Fold(singles, DoublePushes(w), BlockDoubleStep(w, between));
      |ep.0| <= |captures| <= |singles| <= |doubles| <= |CaptureOrBlock(w, king, checkers, checker)|
  {
    var ep := EpEvasions(w, checkers, CheckerTakers(w, checker));
    var captures := Fold(ep.0, ep.1, CaptureStep(w, checkers));
    var between := Obstructed(checker, king);
    var singles := Fold(captures, SinglePushes(w), BlockPushStep(w, between));
    var doubles := Fold(singles, DoublePushes(w), BlockDoubleStep(w, between));
    CaptureStepGrows(w, checkers);
    FoldGrows(ep.0, ep.1, CaptureStep(w, checkers));
    BlockPushStepGrows(w, between);
    FoldGrows(captures, SinglePushes(w), BlockPushStep(w, between));
    BlockDoubleStepGrows(w, between);
    FoldGrows(singles, DoublePushes(w), BlockDoubleStep(w, between));
    BlockStepGrows(w);
    FoldGrows(doubles, between, BlockStep(w));
  }

  /** Parts 1 and 2 of genCheckEvasions against the single checker: en passant, captures, pushes and blocks. */
  method CaptureOrBlockMoves(w: View, king: Square, checkers: Bitboard, checker: Square, list: array<Move>) returns (count: nat)
    requires w.Shaped() && |CaptureOrBlock(w, king, checkers, checker)| <= list.Length
    modifies list
    ensures count <= list.Length && list[..count] == CaptureOrBlock(w, king, checkers, checker)
  {
    CaptureOrBlockGrows(w, king, checkers, checker);
    var takers;
    count, takers := EpMoves(w, list, checkers, CheckerTakers(w, checker));
    count := CaptureMoves(w, checkers, takers, list, count);
    var between := Obstructed(checker, king);
    count := BlockPushMoves(w, between, list, count);
    count := BlockDoubleMoves(w, between, list, count);
    count := BlockMoves(w, between, list, count);
  }

  /** The body of the king loop: a step to `to`, a capture when an enemy piece stands there. */
  method KingMove(w: View, king: Square, to: Square, list: array<Move>, count: nat) returns (next: nat)
    requires w.Shaped() && count <= list.Length && |KingStep(w, king)(list[..count], to)| <= list.Length
    modifies list
    ensures next <= list.Length && list[..next] == KingStep(w, king)(old(list[..count]), to)
  {
    ghost var ms := list[..count];
    next := count;
    if !CanMove(w, king, to) {
      assert KingStep(w, king)(ms, to) == ms;
    } else if Has(OtherPieces(w), to) {
      assert KingStep(w, king)(ms, to) == Add(ms, king, to, CAPTURE);
      next := ListAdd(list, next, king, to, CAPTURE);
    } else {
      assert KingStep(w, king)(ms, to) == Add(ms, king, to, NORMAL);
      next := ListAdd(list, next, king, to, NORMAL);
    }
  }

  /** Part 3: the king steps to every safe square that is empty or holds an enemy piece. */
  method KingMoveList(w: View, king: Square, list: array<Move>, count: nat) returns (next: nat)
    requires w.Shaped() && count <= list.Length
    requires |Fold(list[..count], KingTargets(w, king), KingStep(w, king))| <= list.Length
    modifies list
    ensures next <= list.Length && list[..next] == Fold(old(list[..count]), KingTargets(w, king), KingStep(w, king))
  {
    ghost var goal := Fold(list[..count], KingTargets(w, king), KingStep(w, king));
    KingStepGrows(w, king);
    var targets := KingTargets(w, king);
    next := count;
    while targets != 0
      invariant next <= list.Length && Fold(list[..next], targets, KingStep(w, king)) == goal
      decreases PopCount(targets)
    {
      var to := BitScanForward(targets);
      Turn(list[..next], targets, KingStep(w, king));
      next := KingMove(w, king, to, list, next);
      targets := ResetLs1b(targets);
    }
  }

  /** genCheckEvasions: captures and blocks against a single checker, then king moves against any number. */
  method CheckEvasions(w: View, list: array<Move>) returns (count: nat)
    requires w.Shaped() && OurKing(w) != 0 && |Evasions(w)| <= list.Length
    modifies list
    ensures count <= list.Length && list[..count] == Evasions(w)
  {
    var king := BitScanForward(OurKing(w));
    var checkers := Checkers(w);
    ghost var ms := if PopCount(checkers) == 1 then CaptureOrBlock(w, king, checkers, BitScanForward(checkers)) else [];
    KingStepGrows(w, king);
    FoldGrows(ms, KingTargets(w, king), KingStep(w, king));
    count := 0;
    assert list[..0] == [];
    if PopCount(checkers) == 1 {
      count := CaptureOrBlockMoves(w, king, checkers, BitScanForward(checkers), list);
    }
    count := KingMoveList(w, king, list, count);
  }
}
