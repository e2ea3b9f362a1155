# byak bitboard core, modelled in Dafny

This project models the core of byak, a UCI chess engine written in C.

- **Bitboards.** A board is a 64-bit word with bit `8*rank + file` per square. The model covers:
  - the LS1B / RESET_LS1B / SQ64 bit tricks;
  - the RANK/FILE constants and the one-step shifts;
  - the static tables `bitboard_init` fills (king, knight, file, rank, both diagonals, "obstructed");
  - square names and `algToBin`;
  - the file, rank, diagonal and x-ray attack helpers.
- **Position (`pos`).** The model covers:
  - `position_refresh`, `position_init` and `position_fromFen`;
  - `position_makeMove` / `position_undoMove`, with incremental Zobrist hashing and the castling and en-passant bookkeeping;
  - the pin and attack machinery (`genPinned`, `genAttacks`, `squareAttacked`, `position_inCheck`, `position_getAttackersTo`, `position_attacksFrom`);
  - the legality tests `canMove` and `canTakeEp`;
  - move generation (`genCheckEvasions`, `position_generateMoves`, `listAdd`, `addPromotionMoves`).
- **Transposition table.** The model covers:
  - `tt_setsize` with its power-of-two rounding;
  - depth-priority `tt_save` and bound-aware `tt_probe`;
  - the perft variants.
- **Search bookkeeping.** The model covers:
  - the triangular PV update `_updatePV` and the PV-first `sortMoves`;
  - fail-hard `search_alphaBeta`, `search_root`, `search_iterate`, `search_negamax` and `search_root_negamax`, over an abstract game tree.
- **Small pieces.** The model covers:
  - material evaluation;
  - the piece-letter mapping;
  - the 64-bit PRNG;
  - the singly linked list and `charToInt`.

The form follows the source.

- **Pure code becomes functions.** This covers macros, lookups and the attack helpers, together with lemmas about them.
- **Code that mutates global state becomes classes.**
  - `Tables.Tables` models the static tables of `src/bitboard.c`.
  - `Positions.Position` models the global `pos` record.
  - `TT.Table` models the transposition table.
  - `Search.Searcher` models `pv`, `pv_length` and the search state.
  - `Prng.Generator` models the PRNG state.
  - `Util.List` models the linked list.
- **Each method has a specification function.** Every method is proved against a function of its inputs and old state. The properties the source promises are proved about those functions as lemmas.
- **Bitboard loops stay loops.** The `while (x) { … x = RESET_LS1B(x); }` loops become Dafny `while` loops.
  - Each loop carries the invariant that the rest of the loop, described by `Scan.Fold` / `Scan.Spread`, yields the final result.
  - The move lists are `array<Move>` with a count, as the C `movelist` and `movelistcount` are.

Where the C code is wrong (see Findings), the engine-level members run the corrected definition. This covers the `Positions.Position`, `TT.Table` and `Search.Searcher` classes, and the move-generation, FEN and search lemmas built on them.
- Every such row of the Model table says "corrected".
- The as-written behaviour is modelled beside it by the members the Findings table names.
- `Search.Searcher` carries a switch, `asWritten`, that selects between the no-moves score of `search_alphaBeta` as written and the corrected one.
- The attack-set meaning lemmas (`PositionSpec.SquareAttackedMeaning`, `PositionSpec.InCheckMeaning`, `Legality.KingMovesSafely`) are about the corrected sets. As written, `position_inCheck` misses a check given only by a queen that is not its side's lowest.

Modules:

- **Bitboards and tables:** `Bits`, `Masks`, `Tables`, `Notation`, `Sliders`, `Scan`.
- **Pieces, moves and make/undo:**
  - `Pieces`, `Moves`;
  - `MakeMove`, `MakeMoveInverse`, `MakeMoveProofs`, `PieceBoards`, `MakeMoveRules`.
- **Position and move generation:** `PositionSpec`, `Legality`, `MoveGen`, `MoveLists`, `Fen`, `Positions`.
- **Transposition table:** `TableSize`, `TT`.
- **Search:** `SearchSpec`, `Search`.
- **Small pieces:** `Eval`, `Prng`, `Util`, `Wrappers`.

## Model

| member | source | states |
|---|---|---|
| Bits.SquareNumbering | src/bitboard.h:66-77 | every square is `8*rank + file` of its own rank and file, both below 8 |
| Bits.NamedSquares | src/bitboard.h:66-77 | a1 = 0, h1 = 7, a8 = 56, h8 = 63 (and the other named squares); TOTAL_SQUARES is 64 and NONE_SQUARE is 65, not the 64 its comment says |
| Bits.Sq64Single | src/bitboard.h:63 | SQ64(s) has exactly one bit set |
| Bits.RanksPartition | src/bitboard.h:36-43 | the eight RANK constants are pairwise disjoint and their union is the full board |
| Bits.FilesPartition | src/bitboard.h:45-52 | the eight FILE constants are pairwise disjoint and their union is the full board |
| Bits.RankBoardHas | src/bitboard.h:36-43 | a square lies on the board of its own rank and on no other rank board |
| Bits.FileBoardHas | src/bitboard.h:45-52 | a square lies on the board of its own file and on no other file board |
| Bits.Ls1bZero | src/bitboard.h:57 | `x & -x` is zero exactly when `x` is zero |
| Bits.Ls1bIsLowestBit | src/bitboard.h:57 | for non-empty `x`, `x & -x` is a single bit of `x` and no bit of `x` lies below it |
| Bits.ResetLs1bSplits | src/bitboard.h:60 | RESET_LS1B(x) together with LS1B(x) gives `x` back, and the two are disjoint |
| Bits.ResetLs1bDecreases | src/bitboard.h:60 | RESET_LS1B strictly decreases a non-empty board, so every bit loop terminates |
| Bits.BitScanForwardIsLs1b | src/bitboard.h:108-114 | the bit scan of a non-empty board finds one of its squares, whose board is LS1B, and clearing it is RESET_LS1B |
| Bits.PopCountClearScanned | src/bitboard.h:81 | clearing the scanned square lowers the population count by exactly one, so a bit loop runs popcount(x) times |
| Bits.NortOneSq | src/bitboard.h:86-100 | the north shift moves a square up one rank, or drops it from the eighth rank (likewise for the other seven shifts, in the lemmas beside it) |
| Bits.NoEaOneHas | src/bitboard.h:86-100 | the north-east shift holds `t` exactly when `t` is off the a-file and `x` holds the square south-west of it (likewise for the other diagonal shifts) |
| Bits.RankFileMeet | src/bitboard.h:36-52 | a rank board and a file board meet in exactly the square at that rank and file |
| Bits.MovedBack | src/position.c:740 | undo-move's XOR with the union of the two squares cancels make-move's XOR with both squares |
| Masks.KingMovesGeometry | src/bitboard.c:52-66 | a king reaches exactly the other squares at most one rank and one file away |
| Masks.KingMovesSymmetric | src/bitboard.c:52-66 | `t` is a king move from `s` exactly when `s` is one from `t` |
| Masks.KnightMovesGeometry | src/bitboard.c:69-91 | a knight reaches exactly the squares (2,1) or (1,2) away in rank and file, so no jump wraps across the board edge |
| Masks.KnightMovesSymmetric | src/bitboard.c:69-91 | knight moves are symmetric |
| Masks.FileMaskHas | src/bitboard.c:94-104 | the file mask of `s` holds exactly the squares of its file |
| Masks.RankMaskHas | src/bitboard.c:107-117 | the rank mask of `s` holds exactly the squares of its rank |
| Masks.DiagNEHas | src/bitboard.c:123-151 | the north-east mask of `s` holds exactly the squares with the same rank minus file |
| Masks.DiagNWHas | src/bitboard.c:158-182 | the north-west mask of `s` holds exactly the squares with the same rank plus file |
| Masks.DiagNEShared | src/bitboard.c:123-151 | every square of a north-east diagonal has that same diagonal as its mask |
| Masks.DiagNWShared | src/bitboard.c:158-182 | every square of a north-west diagonal has that same diagonal as its mask |
| Masks.BtwnHas | src/bitboard.c:184-217 | the between-set of gen_obstructed holds exactly the squares strictly between its ends in square order |
| Masks.LineTests | src/bitboard.c:184-217 | the four line tests gen_obstructed tries, in order, are "same file", "same rank", "same north-east diagonal", "same north-west diagonal" |
| Masks.ObstructedOnFile | src/bitboard.c:184-217 | for two squares on one file, obstructed holds exactly the file squares strictly between them |
| Masks.ObstructedOnRank | src/bitboard.c:184-217 | for two squares on one rank (not one file), obstructed holds exactly the rank squares strictly between them |
| Masks.ObstructedOnDiagNE | src/bitboard.c:184-217 | for two squares on one north-east diagonal, obstructed holds exactly the diagonal squares strictly between them |
| Masks.ObstructedOnDiagNW | src/bitboard.c:184-217 | for two squares on one north-west diagonal, obstructed holds exactly the diagonal squares strictly between them |
| Masks.ObstructedEmpty | src/bitboard.c:184-217 | squares sharing no line, and a square with itself, have an empty obstructed set |
| Masks.ObstructedExcludesEnds | src/bitboard.c:184-217 | neither end is ever in the obstructed set |
| Masks.ObstructedSymmetric | src/bitboard.c:184-217 | obstructed[a][b] == obstructed[b][a] |
| Masks.KingMovesReference | src/test.c:142-151 | the king masks of a1, h1, a8, h8 and d4 equal the reference values, e.g. a1 → 0x302 |
| Masks.KnightMovesReference | src/test.c:153-162 | the knight masks of a8, d8, h8, a1, d1, h1 equal the reference values |
| Masks.FileRankReference | src/test.c:164-180 | the file and rank masks at the reference squares equal the reference values |
| Masks.DiagNWReference | src/test.c:182-193 | the north-west masks at the reference squares equal the reference values |
| Masks.DiagNEReference | src/test.c:195-206 | the north-east masks at the reference squares equal the reference values |
| Masks.ObstructedReference | src/test.c:133-140 | the obstructed sets of the reference square pairs equal the reference values |
| Tables.Tables.Init | src/bitboard.c:219-240 | after bitboard_init every table (names, king, knight, file, rank, both diagonals, obstructed) holds its mask function at every square |
| Tables.Tables.GenNames | src/bitboard.c:222-229 | the bin2alg loop writes at each square the name of its file letter then rank digit |
| Tables.Tables.GenKingMoves | src/bitboard.c:52-66 | the loop leaves king_moves[s] equal to the king mask of every square |
| Tables.Tables.GenKnightMoves | src/bitboard.c:69-91 | the loop leaves knight_moves[s] equal to the knight mask of every square |
| Tables.Tables.GenFiles | src/bitboard.c:94-104 | the loop leaves file_mask[s] equal to the file of every square |
| Tables.Tables.GenRanks | src/bitboard.c:107-117 | the loop leaves rank_mask[s] equal to the rank of every square |
| Tables.Tables.GenDiagNE | src/bitboard.c:123-151 | the two ray-walking loops leave diag_mask_ne[s] equal to the north-east diagonal of every square |
| Tables.Tables.GenDiagNW | src/bitboard.c:158-182 | the two ray-walking loops leave diag_mask_nw[s] equal to the north-west diagonal of every square |
| Tables.Tables.GenObstructed | src/bitboard.c:184-217 | the double loop leaves obstructed_mask[a][b] equal to the obstructed set for every pair |
| Tables.Tables.ObstructedEntry | src/bitboard.c:186-215 | one pass of the inner loop computes the obstructed set of its pair |
| Tables.Tables.BinToAlg | src/bitboard.c:242-245 | binToAlg is the name of the lowest square of the board |
| Tables.Tables.GetKingMoves | src/bitboard.c:306-309 | the lookup is the king mask of the lowest square of the board |
| Tables.Tables.GetKnightMoves | src/bitboard.c:311-314 | the lookup is the knight mask of the lowest square of the board |
| Tables.Tables.GetFile | src/bitboard.c:317-320 | the lookup is the file mask of the lowest square of the board |
| Tables.Tables.GetRank | src/bitboard.c:327-330 | the lookup is the rank mask of the lowest square of the board |
| Tables.Tables.GetDiagNE | src/bitboard.c:332-335 | the lookup is the north-east mask of the lowest square of the board |
| Tables.Tables.GetDiagNW | src/bitboard.c:337-340 | the lookup is the north-west mask of the lowest square of the board |
| Tables.Tables.GetObstructed | src/bitboard.c:342-345 | the lookup is the obstructed set of the lowest squares of its two arguments |
| Tables.Tables.AlgBinRoundTrip | src/bitboard.c:242-269 | algToBin(binToAlg(SQ64(s))) == SQ64(s) for every square |
| Notation.AlgToBin | src/bitboard.c:247-269 | the loop over the eight letters and digits returns the board of the named square, or the empty board when either character is out of range |
| Notation.NameRoundTrip | src/bitboard.c:242-269 | a square's name reads back as that square |
| Notation.NamesDistinct | src/bitboard.c:222-229 | distinct squares have distinct names |
| Notation.OutOfRangeIsEmpty | src/bitboard.c:259-268 | algToBin returns 0 whenever the first character is not a file letter or the second not a rank digit |
| Notation.NameReference | src/test.c:208-344 | the reference names and squares of the bin2alg and alg2bin tests agree with the model |
| Scan.SpreadHas | src/position.c:316-378 | an `acc \|= f(LS1B(xs))` loop ORs in exactly the boards of the squares of `xs` |
| Scan.HitsStep | src/bitboard.h:57-60 | the squares a bit loop visits are the lowest square followed by those of RESET_LS1B |
| Scan.FoldKeeps | src/position.c:972-1007 | a property every loop step keeps holds after the whole bit loop |
| Sliders.SegmentIsObstructed | src/bitboard.c:184-217 | the engine's obstructed[s][t] is the segment strictly between `s` and `t` on the line joining them |
| Sliders.RookAttacksHas | src/bitboard.c:351 | the rook attack function holds `t` exactly when `t` shares a file or rank with `s` and nothing stands strictly between them |
| Sliders.BishopAttacksHas | src/bitboard.c:364 | the bishop attack function holds `t` exactly when `t` shares a diagonal with `s` and nothing stands strictly between them |
| Sliders.SeesSymmetric | src/bitboard.c:348-365 | a slider on `s` sees `t` exactly when one on `t` sees `s` |
| Sliders.FileAttacksHas | src/bitboard.c:348-353 | fileAttacks is the rook attacks of the lowest square of `from` along its file only (rook attacks minus its rank mask) |
| Sliders.RankAttacksHas | src/bitboard.c:355-360 | rankAttacks is the rook attacks along the rank only (rook attacks minus its file mask) |
| Sliders.DiagonalAttacksHas | src/bitboard.c:362-365 | diagonalAttacks is the bishop attacks of the lowest square of `from` |
| Sliders.XrayFileOfReveals | src/bitboard.c:367-375 | the x-ray file attacks are 0 without a screen; otherwise they are exactly the file squares seen once the screen is lifted and not seen before |
| Sliders.XrayRankOfReveals | src/bitboard.c:377-385 | the same for the rank, with the a- and h-file excluded from the screen |
| Sliders.XrayDiagonalOfReveals | src/bitboard.c:387-395 | the same for the diagonals, with the board edge excluded from the screen |
| Sliders.BishopAttacksReference | src/test.c:127-131 | Bmagic of d4 with pieces on a1, f2, b6 and h8 is the reference value 0x8040221400142201 |
| Sliders.RevealedBehindScreen | src/bitboard.c:367-395 | a square only the lifted screen brings into view has a screen piece strictly between it and the slider |
| Pieces.LetterRoundTrip | src/pieces.c:21-40 | every letter get_piece_letter produces is read back by the FEN parser as the same piece |
| Pieces.FenLetterRoundTrip | src/position.c:658-669 | every letter the FEN parser accepts is the letter of the piece it places |
| Pieces.LettersInjective | src/pieces.c:24-36 | distinct pieces have distinct letters |
| Pieces.BlackIsLowerCase | src/pieces.c:24-36 | white pieces map to upper-case letters and each black piece to the lower-case form of its white counterpart's letter |
| Util.CharToInt | src/util.c:5-11 | the digit's value for '0'..'9', 0 for every other character |
| Util.DigitRoundTrip | src/util.c:5-11 | reading a digit's character gives the digit, and every digit character is some digit's |
| Util.List.constructor | src/util.c:14-19 | a new list is empty |
| Util.List.Prepend | src/util.c:21-32 | the datum goes first and the old data follow in order |
| Util.List.Append | src/util.c:34-60 | the datum goes last after the old data in order; an empty list gets it as its only element |
| Util.List.Len | src/util.c:62-70 | the count is the number of nodes reachable from `first` |
| Util.ListLifecycle | src/util.c:14-70 | a new list has length 0; prepending and appending each add one and put the datum at the head and tail |
| Eval.MaterialIsWeightedSum | src/eval.c:41-45 | the material balance is the sum over every piece on the board of its signed weight (10, 90, 30, 30, 60; kings 0) |
| Eval.SideToMoveNegates | src/eval.c:27-47 | the same boards score opposite for White and Black to move |
| Eval.KingsIgnored | src/eval.c:41-45 | replacing either king's board leaves the score unchanged |
| Eval.ColourSymmetry | src/eval.c:19-47 | exchanging the colours of all pieces and of the side to move keeps the score |
| Eval.CaptureChangesMaterial | src/eval.c:41-45 | removing one piece changes the material balance by exactly its worth |
| Eval.EvalMove | src/eval.c:50-53 | every move is worth 1 |
| Prng.RotIsRotateLeft | src/prng.c:22 | at the amounts 7, 13 and 37 the rot macro is a left rotation of the 64-bit word |
| Prng.Generator.constructor | src/prng.c:24-27 | the generator starts in the zeroed static state |
| Prng.Generator.Rand64 | src/prng.c:32-40 | one step: e = a - rot(b,7), a = b ^ rot(c,13), b = c + rot(d,37), c = d + e, d = e + a, mod 2^64; the value drawn is the new d |
| Prng.Generator.Init | src/prng.c:43-52 | the state is reset to a = 0xf1ea5eed, b = c = d = 0xd4e12c77 and then stepped exactly `seed` times |
| Prng.Generator.Draw | src/prng.c:32-40 | `count` calls of rand64 return the stream of the current state, in order |
| Prng.StepsAdd | src/prng.c:32-40 | `m` calls followed by `k` calls are `m + k` calls |
| Prng.StreamSplit | src/prng.c:32-40 | the values of `m + k` calls are those of the first `m` followed by the next `k` |
| Prng.SameSeedSameValues | src/prng.c:43-52 | two generators initialised with the same seed produce the same values |
| MakeMoveInverse.MakePieces | src/position.c:733-825 | make-move's boards: the mover moved, the captured piece (en passant: the pawn behind) removed, a promotion's pawn replaced by the new piece, a castling's rook moved |
| MakeMoveInverse.MakeFields | src/position.c:744-837 | make-move flips the side, clears the rights of the squares left and reached, and sets the en-passant square only as the move opens one |
| MakeMoveInverse.MakeHash | src/position.c:741-837 | make-move's hash is the old hash with exactly the keys it toggles, in order |
| MakeMoveInverse.MakeRecord | src/position.c:728-736 | the returned move carries the captured piece found on the destination, the old en-passant square and the old rights |
| MakeMoveInverse.UndoPieces | src/position.c:852-927 | undo-move's boards, with the piece its scan finds on the destination |
| MakeMoveInverse.UndoFields | src/position.c:852-931 | undo-move flips the side back and restores the en-passant square and rights saved in the move |
| MakeMoveInverse.UndoHash | src/position.c:853-930 | undo-move's hash is the hash with exactly the keys it toggles, in order |
| MakeMoveInverse.BoardsRestored | src/position.c:720-934 | for every kind of move the engine generates, undo-move finds the landed piece on the destination and restores every piece board |
| MakeMoveInverse.MakeUndoInverse | src/position.c:720-934 | undo-move after make-move restores the piece boards, side, en-passant square, rights and hash exactly, for any Zobrist keys |
| MakeMoveProofs.Journal | src/position.c:741-930 | the keys make-move and undo-move toggle cancel pairwise, whatever their values |
| MakeMoveProofs.CaptureKeysAgree | src/position.c:754-767 | make-move and undo-move toggle the same key for the captured piece |
| PieceBoards.CaptureLands | src/position.c:740-766 | an ordinary capture takes the victim off the destination and the mover lands there alone |
| PieceBoards.CaptureBack | src/position.c:856-892 | undo-move moves the capturer back and sets the victim's square again |
| PieceBoards.CastleBack | src/position.c:912-927 | undo-move moves the king back and the rook from its castled square to its corner |
| PieceBoards.PromotionBack | src/position.c:895-911 | undo-move removes the promoted piece and puts the pawn back on the origin |
| MakeMoveRules.ClearRightsMeaning | src/position.c:773-790 | a right survives a square being touched exactly when it held and the square is not its king's or rook's home square |
| MakeMoveRules.MakeRights | src/position.c:773-792 | after make-move each right is held exactly when it was held before and the move neither left nor reached one of its guard squares |
| MakeMoveRules.MakeOnlyClearsRights | src/position.c:773-792 | make-move never grants a castling right |
| MakeMoveRules.NewEnPassantMeaning | src/position.c:826-833 | a move opens an en-passant square exactly when it is a plain double push landing beside an enemy pawn, and the square is (from + to) / 2 |
| MakeMoveRules.MidpointUp | src/position.c:830 | for a white double push (from + to) / 2 is the square in front of the origin |
| PositionSpec.RefreshedMeaning | src/position.c:71-102 | after position_refresh the side boards are the unions of each side's six boards, the occupancy their union and the empty set its complement |
| PositionSpec.RefreshedClears | src/position.c:71-102 | position_refresh zeroes the attack sets, pinner[], the pins and both flags, and keeps the pieces, side, en-passant square, rights and hash |
| PositionSpec.PawnAttacksGeometry | src/position.c:382-383 | a pawn attacks the two squares one rank ahead (up for White) and one file aside |
| PositionSpec.PawnAttacksOfHas | src/position.c:382-383 | the pawn attack set of a side holds exactly the squares one of its pawns attacks |
| PositionSpec.KnightsAttacksHas | src/position.c:316-330 | after refresh and genAttacks the knight set of a side holds exactly the squares its knights attack |
| PositionSpec.KingAttacksHas | src/position.c:311-312 | the king set holds exactly the squares the side's king attacks |
| PositionSpec.QueenRooksAttacksHas | src/position.c:334-360 | corrected (see Findings, src/position.c:334-342): the rook-like set holds exactly the squares a queen or rook of the side sees along files and ranks, every queen counted |
| PositionSpec.QueenBishopsAttacksHas | src/position.c:334-378 | corrected (see Findings, src/position.c:334-342): the bishop-like set holds exactly the squares a queen or bishop of the side sees along diagonals, every queen counted |
| PositionSpec.AttackedBuilds | src/position.c:306-384 | corrected (see Findings, src/position.c:334-342): genAttacks on a refreshed record builds both sides' attack sets, every queen counted, and changes nothing else |
| PositionSpec.SquareAttackedMeaning | src/position.c:177-192 | with the attack sets built, squareAttacked(t) holds exactly when some piece of the side not to move attacks `t` |
| PositionSpec.InCheckMeaning | src/position.c:194-205 | position_inCheck holds exactly when a pawn, knight, queen, rook or bishop of the other side attacks our king's square (the other king is not looked at) |
| PositionSpec.AttacksFromPiece | src/position.c:145-175 | with one piece per square, attacksFrom(s) is the attack board of the piece on `s` |
| PositionSpec.AttacksFromEmpty | src/position.c:145-175 | attacksFrom of an empty square is empty |
| PositionSpec.AttackersToHas | src/position.c:114-143 | the six tests of getAttackersTo pick up every piece that attacks `t` and nothing else |
| PositionSpec.AttackersToMeaning | src/position.c:114-175 | after genAttacks, `s` is among the attackers of `t` exactly when `t` is in attacksFrom(s) |
| PositionSpec.SecondQueenMissed | src/position.c:334-337 | as written, with White queens on a1 and h8 the rook-like attack set misses g8, which the h8 queen attacks |
| PositionSpec.SecondQueenDiagonalMissed | src/position.c:334-337 | as written, with White queens on a1 and h1 the bishop-like attack set misses g2, which the h1 queen attacks; the corrected set holds it |
| Legality.FreePieceMoves | src/position.c:225-265 | a move of a piece that is neither pinned nor the king is refused only when it lands on the enemy king |
| Legality.PinnedMovesAlongLine | src/position.c:232-250 | a pinned piece may move exactly along a line through its pinner that holds both of its squares, a diagonal for a queen or bishop pinner, a rank or file for a queen or rook pinner |
| Legality.PinnedKnightStuck | src/position.c:232-250 | a pinned knight can never move |
| Legality.KingMovesSafely | src/position.c:252-262 | an unpinned king may step to `to` exactly when no enemy piece attacks it, the enemy king is not on it, and, in check, no enemy slider reaches it through the lifted king |
| Legality.SliderBehindNames | src/position.c:258-262 | a slider test that refuses a king step names an enemy slider that sees `to` through the lifted king |
| Legality.EpRefusalIsRankPin | src/position.c:208-223 | canTakeEp refuses only a capturer standing strictly between our king and an enemy rook or queen on the king's rank that sees the king once the double-moved pawn and our blockers are lifted |
| Legality.PinnedAreOurs | src/position.c:282-299 | genPinned marks only our own pieces as pinned and keeps 64 pinner entries |
| Legality.PinnerMeaning | src/position.c:288-290 | every pinner genPinned collects is an enemy queen or rook on the king's file or rank, or an enemy queen or bishop on one of its diagonals, with one of our pieces strictly between |
| Legality.PinnerFound | src/position.c:282-299 | conversely, such an enemy slider with exactly one occupied square strictly between it and the king, holding one of our pieces, is collected as a pinner and that piece is marked pinned |
| Legality.FilePinnerFound | src/position.c:288 | the x-ray file attacks from the king reach an enemy slider on its file behind our lone piece |
| Legality.RankPinnerFound | src/position.c:289 | the x-ray rank attacks from the king reach an enemy slider on its rank behind our lone piece |
| Legality.DiagonalPinnerFound | src/position.c:290 | the x-ray diagonal attacks from the king reach an enemy slider on its diagonal behind our lone piece |
| Legality.PinnedFound | src/position.c:292-298 | the pinner loop marks our piece strictly between the king and every pinner it visits |
| MoveGen.PromotionsFour | src/position.c:267-280 | each promotion yields four moves between the same squares, one per kind, queen first |
| MoveGen.DoubleCheckKingOnly | src/position.c:401 | with two or more checkers genCheckEvasions produces only king moves |
| MoveGen.KingMovesFrom | src/position.c:519-538 | the king loop adds only moves from the king's square |
| MoveGen.GenerateInCheck | src/position.c:944-955 | in check, the list is the evasion list, in_check is set, and checkmated is set exactly when that list is empty |
| MoveGen.CastleNeeds | src/position.c:1011-1032 | a castle is offered only with its right held, the squares between king and rook empty, and the king's path unattacked |
| MoveGen.EmptySquaresAre | src/position.c:58-65 | a white king-side castle needs f1 and g1 empty, queen-side b1, c1 and d1, and the same on the eighth rank |
| MoveGen.EpTryAdds | src/position.c:417-428 | an en-passant try adds at most one move, from a pawn beside the checker to the en-passant square |
| MoveGen.RookCheckEpEvasion | src/position.c:417-428 | as written, with a White king on h7 checked by a rook on c7, a White pawn on b7 and the en-passant square d6 (Black pawn on d5), the move b7-d6 en passant is generated although the b7 pawn does not attack d6; the corrected evasions are empty |
| MoveGen.EpEvasionsOnlyAgainstPawn | src/position.c:417-428 | corrected, an en-passant evasion is tried only against a checking enemy pawn and moves a pawn of ours beside it |
| MoveLists.ListAdd | src/position.c:104-111 | the move goes into the next free slot and the count rises by one |
| MoveLists.AddPromotions | src/position.c:267-280 | four moves are appended, queen, bishop, knight, rook |
| MoveLists.TargetMoves | src/position.c:976-1005 | the inner loop appends exactly what the target steps of the piece produce, in square order |
| MoveLists.PieceMoves | src/position.c:972-1007 | the outer loop appends exactly the moves of every piece of ours, lowest square first |
| MoveLists.CastleMoves | src/position.c:1011-1032 | the castling block appends the castles, king side first |
| MoveLists.SinglePushMoves | src/position.c:1048-1064 | the single-push loop appends the pushes and unpins a pinned pawn free to push along its pin |
| MoveLists.DoublePushMoves | src/position.c:1066-1073 | the double-push loop appends the double pushes of pawns not pinned |
| MoveLists.QuietMoveList | src/position.c:957-1075 | the ordinary generation writes piece moves, castles, single and double pushes, and leaves the pinned set as the pushes leave it |
| MoveLists.EpMoves | src/position.c:417-428 | corrected (see Findings, src/position.c:417-428): the en-passant part writes the en-passant evasions, tried only against a checking pawn, and returns the takers still to try |
| MoveLists.CaptureMoves | src/position.c:430-447 | the capture loop appends each capture of the checker by our other pieces, promotions for a pawn reaching the last rank |
| MoveLists.CaptureCases | src/position.c:433-444 | one capture step adds nothing, four promotions or one capture, by its three conditions |
| MoveLists.BlockPushMoves | src/position.c:469-484 | the blocking single pushes onto the checking line |
| MoveLists.BlockDoubleMoves | src/position.c:486-495 | the blocking double pushes onto the checking line |
| MoveLists.BlockMoves | src/position.c:497-510 | every officer of ours that attacks a square on the checking line and may move there |
| MoveLists.CaptureOrBlockMoves | src/position.c:401-511 | parts 1 and 2 of genCheckEvasions write exactly the en-passant captures (corrected guard, see Findings, src/position.c:417-428), captures, pushes and blocks |
| MoveLists.KingMoveList | src/position.c:519-538 | the king steps to every safe square that is empty or holds an enemy piece |
| MoveLists.CheckEvasions | src/position.c:386-539 | genCheckEvasions writes exactly the evasions, with the corrected en-passant guard (see Findings, src/position.c:417-428) |
| MoveLists.QuietGrows | src/position.c:957-1075 | each stage of the ordinary generation only lengthens the list |
| Fen.BoardCharMeaning | src/position.c:642-673 | a board character fails exactly when it is not '/', a digit or a piece letter, or a piece letter falls off the board; '/' goes down a rank to the a-file, a digit skips files, a piece letter adds just its bit and key |
| Fen.PlacementAsWritten | src/position.c:644 | as written, each piece letter is placed at index 8*rank + file, with no bound check |
| Fen.OffBoardAsWritten | src/position.c:644-669 | as written, "8P" places a piece at index 64 and "8/8P" at 56 (a8, a rank already described) |
| Fen.PlacementAgrees | src/position.c:644 | on the board, the corrected placement is the square 8*rank + file the code meant |
| Fen.OffBoardRefused | src/position.c:642-673 | the corrected parser refuses "8P" and "8/8P" |
| Fen.SideCharAsWrittenBreaks | src/position.c:674-677 | as written, a White-to-move record reading "w" keeps its side but changes its hash |
| Fen.SideCharKeepsUnsided | src/position.c:674-677 | corrected, the side letter sets the side it names and the side key is in the hash exactly when Black is to move |
| Fen.CastlingAsWrittenOrder | src/position.c:678-694 | as written, "KQ" and "QK" give the same rights but different hashes, neither holding just the key of those rights |
| Fen.CastlingCharKeepsKey | src/position.c:678-694 | corrected, each castling letter adds its right and the hash holds the key of the new rights exactly once |
| Fen.CastlingOrderCorrected | src/position.c:678-694 | corrected, both orders leave exactly the key of the rights granted, for any keys |
| Fen.EpCharMeaning | src/position.c:695-711 | without an en-passant square yet, a character sets one exactly when it and the next name a square on rank 3 or 6; that square's key joins the hash |
| Fen.EpCharOnSquare | src/position.c:700-710 | a named target becomes the en-passant square exactly when it lies on rank 3 or rank 6 |
| Fen.Step | src/position.c:635-712 | corrected board, side and castling characters (see Findings, src/position.c:644, 675-676, 693): a character fails only in the board field on a refused character; a space moves to the next field |
| Fen.Parse | src/position.c:635-717 | with the corrected characters, which refuse off-board letters, the parse keeps the record well formed, and once past the board field it always reaches the end of the text |
| Fen.EmptyBoardLoads | src/position.c:635-717 | a board field that ends at once is accepted whatever the other fields hold |
| Fen.BadFirstCharacter | src/position.c:670-671 | a text opening with a refused character returns -1 with the record untouched |
| Fen.ParseFen | src/position.c:635-714 | the character loop computes the corrected parse of the whole text |
| Positions.MakeThenUndo | src/position.c:720-934 | undo-move after make-move gives back the record as position_refresh leaves it, hash included |
| Positions.OrEach | src/position.c:316-330 | one `do … while (RESET_LS1B)` loop ORs in the board of each square visited |
| Positions.PinsOf | src/position.c:292-298 | the pinner loop computes the pinned set and pinner[] of genPinned |
| Positions.AttackSets | src/position.c:306-384 | corrected (see Findings, src/position.c:334-342): the body of genAttacks, every queen counted, computes the five attack sets of both sides |
| Positions.GeneratedInCheck | src/position.c:936-955 | when the side to move is in check, generation sets in_check, returns the evasions and sets checkmated exactly when there are none |
| Positions.GeneratedQuiet | src/position.c:956-1075 | otherwise generation returns the ordinary moves and only the pinned set changes |
| Positions.Position.constructor | src/position.c:541-565 | position_init: no pieces, White to move, no rights, no en-passant square, hash 0 |
| Positions.Position.Refresh | src/position.c:71-102 | the record becomes its refreshed form |
| Positions.Position.GenPinned | src/position.c:282-299 | the pinned set and pinner[] become genPinned's results and nothing else changes |
| Positions.Position.GenAttacks | src/position.c:306-384 | corrected (see Findings, src/position.c:334-342): the attack sets become those genAttacks builds with every queen counted, and nothing else changes |
| Positions.Position.MakeMove | src/position.c:720-840 | the record becomes the move played and refreshed; the returned move carries what undo needs |
| Positions.Position.UndoMove | src/position.c:842-934 | the record becomes the move taken back and refreshed |
| Positions.Position.FromFen | src/position.c:628-718 | corrected characters (see Findings, src/position.c:644, 675-676, 693): returns 0 with the text loaded and the record refreshed when every character is accepted, -1 at the first refused one with what was written kept |
| Positions.Position.Prepare | src/position.c:940-941 | genPinned then the corrected genAttacks |
| Positions.Position.Evade | src/position.c:944-955 | in_check set, the evasions written with the corrected en-passant guard, checkmated exactly when there are none |
| Positions.Position.Quiet | src/position.c:957-1075 | the ordinary moves written, the pinned set as the pushes leave it |
| Positions.Position.GenerateMoves | src/position.c:936-1076 | the record and the list become those of position_generateMoves, with the corrected attack sets and en-passant guard |
| TableSize.RoundDownIsLargestPower | src/tt.c:50-58 | a positive size is rounded down to the largest power of two not above it; a power of two is kept |
| TableSize.RoundDownNotPositive | src/tt.c:50-62 | a zero or negative size ends below 16 bytes, so the table is switched off |
| TableSize.SmearShape | src/tt.c:51-54 | the smearing loop turns a non-negative `x` into the all-ones word just covering it |
| TableSize.AsWrittenAgreesUpTo2To30 | src/tt.c:50-58 | up to 2^30 bytes the code as written rounds as intended |
| TableSize.AsWrittenOverflows | src/tt.c:56-57 | as written, 1572864000 bytes wrap to INT_MIN at `size++` and switch the table off |
| TableSize.EngineDefaultSize | src/main.c:22 | 144000000 bytes become 2^27 bytes, i.e. 2^23 entries |
| TT.SlotIsRemainder | src/tt.c:100 | with a power-of-two table, `hash & tt_size` is the hash modulo the number of slots, so every index is in bounds |
| TT.StoreCases | src/tt.c:104-109 | a slot keeps its entry exactly when it holds the same key at a greater depth, and otherwise takes all four new fields |
| TT.ProbeEntryAnswers | src/tt.c:113-143 | a probe answers the exact score, alpha from an upper bound at or below alpha, beta from a lower bound at or above beta, and 0 for another key or a shallower entry |
| TT.SaveThenProbeExact | src/tt.c:97-131 | an exact score saved is found by any probe of the same key at no greater depth |
| TT.SaveThenProbeAlpha | src/tt.c:129-139 | a saved upper bound answers alpha exactly when it proves the score cannot exceed alpha |
| TT.SaveThenProbeBeta | src/tt.c:129-139 | a saved lower bound answers beta exactly when it proves the score reaches beta |
| TT.SaveKeepsDeeper | src/tt.c:104 | saving never loses a deeper result for the same key |
| TT.PerftRoundTrip | src/tt.c:145-171 | a perft count saved at a depth is read back at that depth |
| TT.Table.constructor | src/tt.c:26-27 | no table yet and tt_size 0 |
| TT.Table.SetSize | src/tt.c:29-69 | corrected rounding (see Findings, src/tt.c:56-57): returns whether the rounded size reaches 16 bytes; tt_size becomes size/16 - 1 with that many entries plus one, or 0 |
| TT.Table.Save | src/tt.c:97-110 | nothing without a table; otherwise only the key's slot changes, as StoreCases says |
| TT.Table.Probe | src/tt.c:113-143 | 0 without a table, otherwise the answer of the key's slot |
| TT.Table.PerftSave | src/tt.c:145-157 | only the key's slot changes; a same-key entry of another depth is kept |
| TT.Table.PerftProbe | src/tt.c:160-171 | the count only for the same key at the same depth, else 0 |
| TT.SaveThenProbe | src/tt.c:97-143 | saving an exact score then probing the key at no greater depth returns the score, unless a deeper result for the key was there |
| TT.SaveElsewhere | src/tt.c:97-143 | a save to another slot leaves every probe of this key as it was |
| TT.EngineDefaultTable | src/main.c:22 | the default table has 2^23 slots and mask 2^23 - 1 |
| TT.SixteenBytes | src/tt.c:60-68 | sixteen bytes are accepted yet leave tt_size 0, read everywhere as no table |
| SearchSpec.BestFromIsMax | src/search.c:303-314 | the best-child score is the maximum of the children's scores, reached by one of them unless it is -INFINITY |
| SearchSpec.BestFromPermutation | src/search.c:118-138 | reordering the moves does not change the best score |
| SearchSpec.NegamaxBounded | src/search.c:292-315 | with bounded evaluations the negamax value is bounded |
| SearchSpec.SwappedIsPermutation | src/search.c:127-129 | exchanging two entries keeps the same moves |
| SearchSpec.SortedMember | src/search.c:118-138 | a move of the sorted list is a move of the original list |
| SearchSpec.ScanEnd | src/search.c:256-258 | past the last move the loop saves alpha with the flag it reached |
| SearchSpec.ScanCutoff | src/search.c:242-246 | a child answer at or above beta ends the loop with beta, saved as BETA |
| SearchSpec.ScanNext | src/search.c:248-253 | a child answer below beta raises alpha to it when larger, and the flag becomes EXACT exactly when alpha rose |
| SearchSpec.SearchIsClampedNegamax | src/search.c:209-259 | with the corrected no-moves score (see Findings, src/search.c:232), without a table and a stop request, fail-hard alpha-beta returns the negamax value clamped to the window (leaves and positions without moves unclamped) |
| SearchSpec.ScanIsClampedBest | src/search.c:237-258 | with the corrected no-moves score, without a table and a stop request, the move loop returns the best score joined with alpha, clamped to the window |
| SearchSpec.ScanWithinWindow | src/search.c:237-258 | with any table, stop flag and no-moves scoring, the move loop's result lies in [alpha, beta] |
| SearchSpec.VisitWithinWindow | src/search.c:209-259 | after a table miss at a node with moves, alpha-beta's result lies in [alpha, beta], with any table, stop flag and scoring |
| SearchSpec.RootScanKeepsBest | src/search.c:189-205 | the root loop never lowers alpha and its best index is one of the moves or the one it started with |
| SearchSpec.RootScanIsBest | src/search.c:189-205 | with the corrected no-moves score, without a table and a stop request the root loop finds the best move score joined with alpha, and keeps a move reaching it |
| SearchSpec.RootSearchIsRootNegamax | src/search.c:179-206 | with the corrected no-moves score, search_root with the full window scores the root as search_root_negamax does, whatever order sortMoves gave the moves |
| SearchSpec.NoMovesAsWritten | src/search.c:231-235 | as written, a white position without moves scores +INFINITY for the side to move |
| SearchSpec.AsWrittenAvoidsMate | src/search.c:231-235 | as written, with Black to move, a mating move and a quiet move, the root keeps the quiet move; corrected scoring keeps the mate |
| Search.Searcher.constructor | src/search.c:40-47 | the zero-initialised statics |
| Search.Searcher.Stop | src/search.c:158-161 | the stop flag is raised and nothing else changes |
| Search.Searcher.UpdatePVAsWritten | src/search.c:50-82 | _updatePV as written: the move stored, the child line copied, the length taken from the child, or 1 at the root, or left at `ply` |
| Search.Searcher.UpdatePV | src/search.c:50-82 | corrected: the line at `ply` becomes the move followed by the child's line; every other line unchanged |
| Search.UpdatePVDropsMove | src/search.c:69-80 | as written, at ply 1 with an empty child line the length is 1 and the stored move is outside the line; corrected, the length is 2 |
| Search.Searcher.SortMoves | src/search.c:118-138 | the first move with the squares of pv[0][ply] is swapped to the front, else the list is unchanged |
| Search.Searcher.AlphaBeta | src/search.c:209-259 | score, table and node count are those of the alpha-beta specification, a position without moves scored as search.c:232 is written when `asWritten` is set and corrected otherwise; the PV rows above `ply` are left alone |
| Search.Searcher.ScanMoves | src/search.c:237-258 | the move loop and the save after it, as the specification's Scan says, under the Searcher's scoring |
| Search.Searcher.SearchRoot | src/search.c:179-206 | moves sorted with the previous PV head first, each searched at the root's depth under the Searcher's scoring; score, table and count as the root scan says; the best move heads the root line |
| Search.Searcher.Iterate | src/search.c:163-177 | the PV is cleared, then depths 1..6 are searched unless stopped; the root line's head is a root move or the zero move, and with the corrected scoring and no table it is a best move at depth 6 |
| Search.Searcher.Start | src/search.c:142-155 | the stop flag is cleared and the answer is pv[0][0] (a root move or the zero move), a best move with the corrected scoring and no table |
| Search.Searcher.Negamax | src/search.c:292-315 | the value is the negamax value; the PV rows above `ply` are left alone (the rows below are written by the corrected UpdatePV) |
| Search.Searcher.RootNegamax | src/search.c:266-290 | the best score over the root moves, and the first move reaching it (none when no score beats -INFINITY); the PV below the root is written by the corrected UpdatePV |

## Left out

- Input and output are not modelled: printing, `position_display`, `bitboard_display`, `_printPV`, `printCurmove`, `src/move.c`, the UCI loop and `main`. `search_start` is modelled without its printing.
- Threads and time are not modelled. The stop flag is a field that only `Search.Searcher.Stop` raises.
- The magic tables behind Rmagic and Bmagic (`magicmoves.h`, `initmagicmoves`) are not part of this model. Rook and bishop attacks are the ray-marching functions `Sliders.RookAttacks` and `Sliders.BishopAttacks`.
- The shift helpers, `bitboard_bitScanForward` and `bitboard_IPopCount` are defined from their names and documentation, since their bodies are not part of this model.
- `bitboard_getFileIdx` and the int tables `file[]` and `rank[]` are left out. Nothing in the modelled core reads them.
- tt_init's filling of the Zobrist keys through rand64 is left out. Every key is a parameter (`MakeMove.Zobrist`), and the make/undo theorem holds for any keys.
- `tt_setsize`'s malloc and free are left out: the new table is an array whose initial contents are a parameter. `list_destroy` is left out too.
- `search_quiesce` only returns `eval_position()`. The search specification evaluates the leaf directly.
- The search works over an abstract game tree (`SearchSpec.Tree`) rather than the engine's position.
  - Each node carries its evaluation, hash and moves.
  - `position_generateMoves`, make and undo are therefore not called from the search model.
- `search_root` and `search_alphaBeta` are modelled with `ply + depth` below MAX_DEPTH, which the source's depth limit of 6 meets.
- Positions.Position.MakeMove: requires a piece on the origin (and a piece on the destination of an ordinary capture). Otherwise the C code indexes `bb_pieces[NONE_PIECE]`, which is undefined.
- Positions.MakeThenUndo: holds for the moves the engine generates (`MakeMove.Fits`), i.e. a king castling with its rook on the corner, an en-passant capture behind an enemy pawn, and so on.
- Legality.EpRefusalIsRankPin: proves the direction "refused ⇒ rank-pinned". It does not state that every rank pin is refused, because canTakeEp only looks at the lowest pinner.
- Legality.PinStep: when the screen between a pinner and the king is empty, `bitboard_bitScanForward(0)` is undefined in C. The model writes no pinner entry in that case.
- listAdd writes only from, to and flags. Stale captured_piece, ep and castling_rights fields of a reused slot are not modelled; the model's moves carry neutral values there.
- The loops of genAttacks and genPinned, and the character loop of position_fromFen, are module-level methods over values (`Positions.OrEach`, `Positions.PinsOf`, `Fen.ParseFen`). The class methods store their results, so aliasing between the record's fields and the loop variables is not modelled.
- The inline arrays of `pos` (`bb_pieces`, `pinner`, the attack sets) are `seq` fields of one record value rather than C arrays.
- Fen.ParseFen: the FEN text is the characters before the terminating NUL. `algToBin` reading one past the last character sees '\0'.
- PositionSpec.QueenRooksAttacksHas: is about the corrected set with every queen counted. As written, genAttacks counts only the lowest queen (PositionSpec.QueenRooksAttacksAsWritten).
- PositionSpec.QueenBishopsAttacksHas: is about the corrected set with every queen counted. As written, genAttacks counts only the lowest queen's diagonals (PositionSpec.QueenBishopsAttacksAsWritten).
- PositionSpec.AttackedBuilds: builds the corrected attack sets, not the lowest-queen sets of genAttacks as written.
- Positions.AttackSets: computes the corrected attack sets, not the lowest-queen sets of genAttacks as written.
- Positions.Position.GenAttacks: stores the corrected attack sets, not the lowest-queen sets of genAttacks as written.
- Positions.Position.Prepare: runs the corrected genAttacks.
- MoveLists.EpMoves: tries en passant only against a checking pawn. As written, position.c:417-428 tries it whenever an en-passant square is set (MoveGen.EpEvasionsAsWritten).
- MoveLists.CaptureOrBlockMoves: writes the corrected en-passant evasions, not those of position.c:417-428 as written.
- MoveLists.CheckEvasions: writes the corrected en-passant evasions, not those of position.c:417-428 as written.
- Positions.Position.Evade: writes the corrected evasions.
- Positions.Position.GenerateMoves: uses the corrected attack sets and en-passant evasions, so it does not reproduce the missed queen attacks or the impossible en-passant evasion of the code as written.
- Fen.Step: runs the corrected board, side and castling characters. The characters as written are Fen.PlacementAsWritten, Fen.SideCharAsWritten and Fen.CastlingCharAsWritten.
- Fen.Parse: keeps the record well formed only because the corrected board character refuses off-board letters. As written, "8P" writes past the board.
- Fen.ParseFen: computes the corrected parse.
- Positions.Position.FromFen: loads the corrected parse. It does not reproduce the off-board placement, the side key toggled for "w" or the castling keys toggled per letter.
- TT.Table.SetSize: halves the rounded size without signed overflow. As written, sizes above 2^30 bytes wrap at `size++` and switch the table off (TableSize.RoundDownAsWritten).
- SearchSpec.ScanIsClampedBest: holds with the corrected no-moves score (`Plain` excludes `asWritten`), no table and no stop request.
- SearchSpec.RootScanIsBest: holds with the corrected no-moves score, no table and no stop request.
- SearchSpec.RootSearchIsRootNegamax: holds with the corrected no-moves score. As written, search_root and search_root_negamax disagree once White, to move, has no moves (SearchSpec.AsWrittenAvoidsMate).
- Search.Searcher.AlphaBeta: models both no-moves scores through `asWritten`, but writes the PV with the corrected UpdatePV rather than _updatePV as written.
- Search.Searcher.ScanMoves: writes the PV with the corrected UpdatePV.
- Search.Searcher.SearchRoot: writes the PV with the corrected UpdatePV.
- Search.Searcher.Iterate: promises a best move only when `asWritten` is false. As written, the search can keep a quiet move over a mate.
- Search.Searcher.Start: promises a best move only when `asWritten` is false.
- Search.Searcher.Negamax: writes the PV with the corrected UpdatePV, so pv_length at plies from 1 on can differ from search.c:310 as written.
- Search.Searcher.RootNegamax: writes the PV below the root with the corrected UpdatePV.
- Fen: no lemma reads a whole concrete FEN string such as the start position. Each field is specified character by character instead.

## Findings

| source | as written | input that shows it | evidently intended | confidence | as-written member | corrected member |
|---|---|---|---|---|---|---|
| src/tt.c:56-57 | `size++; size >>= 1;` on a signed int | 1572864000 bytes: the smear gives INT_MAX, `size++` wraps to INT_MIN, the table is switched off | round down to 2^30 bytes | high, not executed | TableSize.RoundDownAsWritten, TableSize.AsWrittenOverflows | TableSize.RoundDown, TableSize.RoundDownIsLargestPower |
| src/search.c:69-80 | a zero child length leaves pv_length[ply] at `ply` (or its old value) except at the root | ply 1, empty child line: pv_length[1] = 1, so the line pv[1][1..1] is empty although pv[1][1] holds the move | the line becomes the move followed by the child's line, length ply + 1 | medium, not executed | Search.Searcher.UpdatePVAsWritten, Search.UpdatePVDropsMove | Search.Searcher.UpdatePV |
| src/search.c:232 | a position without moves scores +INFINITY when White is to move | Black to move, one move mates White: the child scores +INFINITY for White, so the root rates the mate -INFINITY and keeps a quiet move | -INFINITY for the side to move, as search_negamax and eval_position's side-to-move convention give | high, not executed | SearchSpec.NoMovesAsWritten, SearchSpec.AsWrittenAvoidsMate | SearchSpec.NoMovesScore, SearchSpec.SearchIsClampedNegamax |
| src/position.c:334-342 | the queen step scans only the lowest queen of each side, for both the rook-like and the bishop-like sets | White queens a1 and h8: g8 is attacked by the h8 queen but missing from the rook-like set; White queens a1 and h1: g2 is missing from the bishop-like set | every queen ORed in, as for rooks and bishops | high, not executed | PositionSpec.QueenRooksAttacksAsWritten, PositionSpec.SecondQueenMissed, PositionSpec.QueenBishopsAttacksAsWritten, PositionSpec.SecondQueenDiagonalMissed | PositionSpec.Attacked, PositionSpec.QueenRooksAttacksHas, PositionSpec.QueenBishopsAttacksHas |
| src/position.c:417-428 | en-passant evasions are tried whenever an en-passant square is set, "knowing" the checker is a pawn | White king h7 and pawn b7, Black rook c7 giving check, Black pawn d5 with en-passant square d6: b7-d6 en passant is generated, a move the b7 pawn cannot make | try en passant only when the checker is the enemy pawn that just double-moved | medium, not executed | MoveGen.EpEvasionsAsWritten, MoveGen.RookCheckEpEvasion | MoveGen.EpEvasions, MoveGen.EpEvasionsOnlyAgainstPawn |
| src/position.c:644 | squareIndex = 8*rankIndex + fileIndex with no bound check | "8P" places a piece at index 64 (SQ64(64) is undefined); "8/8P" at a8 | refuse a piece letter past the h-file or below the first rank | high, not executed | Fen.PlacementAsWritten, Fen.OffBoardAsWritten | Fen.BoardChar, Fen.OffBoardRefused |
| src/position.c:675-676 | the side key is toggled for the side letter whatever it is | "w" on a White-to-move record adds the side key, while make-move keeps it out exactly when White is to move | toggle the side key only when the side changes | medium, not executed | Fen.SideCharAsWritten, Fen.SideCharAsWrittenBreaks | Fen.SideChar, Fen.SideCharKeepsUnsided |
| src/position.c:693 | the castling key of the rights so far is toggled after every letter | "KQ" and "QK" give the same rights but different hashes, neither holding castling[3] alone, which make-move later toggles out | swap the old rights' key for the new one, so the hash holds the key of the current rights | high, not executed | Fen.CastlingCharAsWritten, Fen.CastlingAsWrittenOrder | Fen.CastlingChar, Fen.CastlingOrderCorrected |
