/**
 * The static lookup tables of src/bitboard.c and the loops of bitboard_init
 * that fill them, each proved to leave its table equal to the mask function
 * of module Masks.
 */
module Tables {
  import opened Bits
  import opened Masks
  import opened Notation

  class Tables {
    const kingMoves: array<Bitboard>
    const knightMoves: array<Bitboard>
    const fileMask: array<Bitboard>
    const rankMask: array<Bitboard>
    const diagNE: array<Bitboard>
    const diagNW: array<Bitboard>
    const obstructed: array2<Bitboard>
    const names: array<string>

    /** Every table has one entry per square, and no two tables share storage. */
    predicate Valid() {
      kingMoves.Length == 64 && knightMoves.Length == 64 && fileMask.Length == 64 &&
      rankMask.Length == 64 && diagNE.Length == 64 && diagNW.Length == 64 &&
      obstructed.Length0 == 64 && obstructed.Length1 == 64 && names.Length == 64 &&
      kingMoves != knightMoves && kingMoves != fileMask && kingMoves != rankMask &&
      kingMoves != diagNE && kingMoves != diagNW &&
      knightMoves != fileMask && knightMoves != rankMask && knightMoves != diagNE && knightMoves != diagNW &&
      fileMask != rankMask && fileMask != diagNE && fileMask != diagNW &&
      rankMask != diagNE && rankMask != diagNW &&
      diagNE != diagNW
    }

    /** After bitboard_init: every table holds its mask function. */
    ghost predicate Ready()
      reads kingMoves, knightMoves, fileMask, rankMask, diagNE, diagNW, obstructed, names
    {
      Valid() && KingReady() && KnightReady() && LinesReady() && ObstructedReady() && NamesReady()
    }

    ghost predicate KingReady()
      reads kingMoves
    {
      Valid() && forall s: Square :: kingMoves[s] == KingMoves(s)
    }

    ghost predicate KnightReady()
      reads knightMoves
    {
      Valid() && forall s: Square :: knightMoves[s] == KnightMoves(s)
    }

    ghost predicate ObstructedReady()
      reads obstructed
    {
      Valid() && forall a: Square, b: Square :: obstructed[a, b] == Obstructed(a, b)
    }

    ghost predicate NamesReady()
      reads names
    {
      Valid() && forall s: Square :: names[s] == SquareName(s)
    }

    /** The file, rank and diagonal tables hold their masks. */
    ghost predicate LinesReady()
      reads fileMask, rankMask, diagNE, diagNW
    {
      Valid() &&
      (forall s: Square :: fileMask[s] == FileMask(s)) &&
      (forall s: Square :: rankMask[s] == RankMask(s)) &&
      (forall s: Square :: diagNE[s] == DiagNE(s)) &&
      (forall s: Square :: diagNW[s] == DiagNW(s))
    }

    /** bitboard_init (the table part): allocate the tables and run every generator in turn. */
    constructor Init()
      ensures Ready()
    {
      kingMoves := new Bitboard[64];
      knightMoves := new Bitboard[64];
      fileMask := new Bitboard[64];
      rankMask := new Bitboard[64];
      diagNE := new Bitboard[64];
      diagNW := new Bitboard[64];
      obstructed := new Bitboard[64, 64];
      names := new string[64];
      new;
      GenNames();
      GenKingMoves();
      GenKnightMoves();
      GenFiles();
      GenRanks();
      GenDiagNE();
      GenDiagNW();
      GenObstructed();
    }

    /** The bin2alg loop of bitboard_init: ranks 1..8, files a..h, one name per square in order. */
    method GenNames()
      requires Valid()
      modifies names
      ensures NamesReady()
    {
      var offset := 0;
      for i := 1 to 9
        invariant offset == 8 * (i - 1)
        invariant forall x :: 0 <= x < offset ==> names[x] == NameInt(x)
      {
        for j := 0 to 8
          invariant offset == 8 * (i - 1) + j
          invariant forall x :: 0 <= x < offset ==> names[x] == NameInt(x)
        {
          // sprintf(bin2alg[offset], "%c%i", letters[j], i)
          names[offset] := [FILE_LETTERS[j], ('0' as int + i) as char];
          LettersAt(i - 1);
          DivMod8(offset, i - 1, j);
          offset := offset + 1;
        }
      }
      forall s: Square ensures names[s] == SquareName(s) {
        assert names[s as int] == NameInt(s as int);
      }
    }

    /** gen_king_moves */
    method GenKingMoves()
      requires Valid()
      modifies kingMoves
      ensures forall s: Square :: kingMoves[s] == KingMoves(s)
    {
      for i := 0 to 64
        invariant forall j :: 0 <= j < i ==> kingMoves[j] == KingMoves(j as Square)
      {
        var offset := Sq64(i as Square);
        var m := NortOne(offset);
        m := m | WestOne(offset);
        m := m | EastOne(offset);
        m := m | SoutOne(offset);
        m := m | NoEaOne(offset);
        m := m | NoWeOne(offset);
        m := m | SoEaOne(offset);
        m := m | SoWeOne(offset);
        kingMoves[i] := m;
      }
      forall s: Square ensures kingMoves[s] == KingMoves(s) {
        assert kingMoves[s as int] == KingMoves(s as int as Square);
      }
    }

    /** gen_knight_moves */
    method GenKnightMoves()
      requires Valid()
      modifies knightMoves
      ensures forall s: Square :: knightMoves[s] == KnightMoves(s)
    {
      for i := 0 to 64
        invariant forall j :: 0 <= j < i ==> knightMoves[j] == KnightMoves(j as Square)
      {
        var offset := Sq64(i as Square);
        var m := (offset << 17) & !FILEA;
        m := m | ((offset << 10) & !FILEA & !FILEB);
        m := m | ((offset >> 6) & !FILEA & !FILEB);
        m := m | ((offset >> 15) & !FILEA);
        m := m | ((offset << 15) & !FILEH);
        m := m | ((offset << 6) & !FILEG & !FILEH);
        m := m | ((offset >> 10) & !FILEG & !FILEH);
        m := m | ((offset >> 17) & !FILEH);
        knightMoves[i] := m;
      }
      forall s: Square ensures knightMoves[s] == KnightMoves(s) {
        assert knightMoves[s as int] == KnightMoves(s as int as Square);
      }
    }

    /** gen_files: square number `count` runs over rank `i` and file `j`. */
    method GenFiles()
      requires Valid()
      modifies fileMask
      ensures forall s: Square :: fileMask[s] == FileMask(s)
    {
      var count := 0;
      for i := 0 to 8
        invariant count == 8 * i
        invariant forall x :: 0 <= x < count ==> fileMask[x] == FileMask(x as Square)
      {
        for j := 0 to 8
          invariant count == 8 * i + j
          invariant forall x :: 0 <= x < count ==> fileMask[x] == FileMask(x as Square)
        {
          fileMask[count] := FILEA << j;
          FileAt(i, j, count);
          count := count + 1;
        }
      }
      forall s: Square ensures fileMask[s] == FileMask(s) {
        assert fileMask[s as int] == FileMask(s as int as Square);
      }
    }

    /** gen_ranks */
    method GenRanks()
      requires Valid()
      modifies rankMask
      ensures forall s: Square :: rankMask[s] == RankMask(s)
    {
      var count := 0;
      for i := 0 to 8
        invariant count == 8 * i
        invariant forall x :: 0 <= x < count ==> rankMask[x] == RankMask(x as Square)
      {
        for j := 0 to 8
          invariant count == 8 * i + j
          invariant forall x :: 0 <= x < count ==> rankMask[x] == RankMask(x as Square)
        {
          rankMask[count] := RANK1 << (8 * i);
          RankAt(i, j, count);
          count := count + 1;
        }
      }
      forall s: Square ensures rankMask[s] == RankMask(s) {
        assert rankMask[s as int] == RankMask(s as int as Square);
      }
    }

    /**
     * gen_diag_ne.  Bottom half: the diagonal through square `i` of rank 1
     * is gathered from the squares i + 9j, j < 8 - i.  Top half: the
     * diagonal through square `i` of rank 8 from the squares i - 9j,
     * j < i - 55.
     */
    method GenDiagNE()
      requires Valid()
      modifies diagNE
      ensures forall s: Square :: diagNE[s] == DiagNE(s)
    {
      for i := 0 to 8
        invariant NEReady(diagNE[..], i, 56)
      {
        ghost var before := diagNE[..];
        GenDiagonal(diagNE, i, 9, 8 - i);
        LowerNEPass(i, before, diagNE[..]);
      }
      for i := 56 to 64
        invariant NEReady(diagNE[..], 8, i)
      {
        ghost var before := diagNE[..];
        GenDiagonal(diagNE, i, -9, i - 55);
        UpperNEPass(i, before, diagNE[..]);
      }
      forall s: Square ensures diagNE[s] == DiagNE(s) {
        RankFileInt(s);
        assert diagNE[..][s] == diagNE[s];
      }
    }

    /**
     * gen_diag_nw.  Bottom half: from square `i` of rank 1 the squares
     * i + 7j, j < i + 1.  Top half: from square `i` of rank 8 the squares
     * i - 7j, j < 64 - i.
     */
    method GenDiagNW()
      requires Valid()
      modifies diagNW
      ensures forall s: Square :: diagNW[s] == DiagNW(s)
    {
      for i := 0 to 8
        invariant NWReady(diagNW[..], i, 56)
      {
        ghost var before := diagNW[..];
        GenDiagonal(diagNW, i, 7, i + 1);
        LowerNWPass(i, before, diagNW[..]);
      }
      for i := 56 to 64
        invariant NWReady(diagNW[..], 8, i)
      {
        ghost var before := diagNW[..];
        GenDiagonal(diagNW, i, -7, 64 - i);
        UpperNWPass(i, before, diagNW[..]);
      }
      forall s: Square ensures diagNW[s] == DiagNW(s) {
        RankFileInt(s);
        assert diagNW[..][s] == diagNW[s];
      }
    }

    /**
     * gen_obstructed: entry [sq1][sq2] for every pair of squares, from the
     * file, rank and diagonal tables generated before it.
     */
    method GenObstructed()
      requires Valid() && LinesReady()
      modifies obstructed
      ensures forall a: Square, b: Square :: obstructed[a, b] == Obstructed(a, b)
    {
      // The loops are checked against this table of Obstructed values, so that
      // they never need to expand the mask functions themselves.
      ghost var spec := seq(64, x requires 0 <= x < 64 => seq(64, y requires 0 <= y < 64 => Obstructed(x as Square, y as Square)));
      forall a: Square, b: Square ensures spec[a as int][b as int] == Obstructed(a, b) {
      }
      FillObstructed(spec);
    }

    /** The two loops of gen_obstructed, filling every entry [sq1][sq2] in order. */
    method FillObstructed(ghost spec: seq<seq<Bitboard>>)
      requires Valid() && LinesReady()
      requires |spec| == 64 && forall x :: 0 <= x < 64 ==> |spec[x]| == 64
      requires forall a: Square, b: Square {:trigger Obstructed(a, b)} :: spec[a as int][b as int] == Obstructed(a, b)
      modifies obstructed
      ensures forall x, y :: 0 <= x < 64 && 0 <= y < 64 ==> obstructed[x, y] == spec[x][y]
    {
      for sq1 := 0 to 64
        invariant forall x, y :: 0 <= x < sq1 && 0 <= y < 64 ==> obstructed[x, y] == spec[x][y]
      {
        for sq2 := 0 to 64
          invariant forall x, y :: 0 <= x < sq1 && 0 <= y < 64 ==> obstructed[x, y] == spec[x][y]
          invariant forall y :: 0 <= y < sq2 ==> obstructed[sq1, y] == spec[sq1][y]
        {
          StoreObstructed(sq1, sq2, spec);
        }
      }
    }

    /** One pass of gen_obstructed's inner loop: compute entry [sq1][sq2] and store it. */
    method StoreObstructed(sq1: int, sq2: int, ghost spec: seq<seq<Bitboard>>)
      requires Valid() && LinesReady() && 0 <= sq1 < 64 && 0 <= sq2 < 64
      requires |spec| == 64 && forall x :: 0 <= x < 64 ==> |spec[x]| == 64
      requires forall a: Square, b: Square {:trigger Obstructed(a, b)} :: spec[a as int][b as int] == Obstructed(a, b)
      modifies obstructed
      ensures obstructed[sq1, sq2] == spec[sq1][sq2]
      ensures forall x, y :: 0 <= x < 64 && 0 <= y < 64 && (x != sq1 || y != sq2) ==> obstructed[x, y] == old(obstructed[x, y])
    {
      IntSquare(sq1);
      IntSquare(sq2);
      var m := ObstructedEntry(sq1 as Square, sq2 as Square);
      obstructed[sq1, sq2] := m;
    }

    /**
     * The body of gen_obstructed's inner loop: the between-set of the two
     * squares, masked by the first line table of `from` that holds `to`.
     */
    method ObstructedEntry(from: Square, to: Square) returns (m: Bitboard)
      requires Valid() && LinesReady()
      ensures m == Obstructed(from, to)
    {
      // btwn: (-1 << sq1) ^ (-1 << sq2) with both end squares included, then excluded
      var btwn := Btwn(from, to);
      m := EMPTY;
      if Has(fileMask[from], to) {
        m := Masked(fileMask[from], btwn);
      } else if Has(rankMask[from], to) {
        m := Masked(rankMask[from], btwn);
      } else if Has(diagNE[from], to) {
        m := Masked(diagNE[from], btwn);
      } else if Has(diagNW[from], to) {
        m := Masked(diagNW[from], btwn);
      } else {
        assert Masked(EMPTY, btwn) == EMPTY;
      }
    }
    /* The get* lookups: each indexes its table at the lowest square of its argument. */

    /** bitboard_binToAlg */
    function BinToAlg(bb: Bitboard): (name: string)
      reads names
      requires NamesReady() && bb != 0
      ensures name == SquareName(BitScanForward(bb))
    {
      names[BitScanForward(bb)]
    }

    /** bitboard_getKingMoves */
    function GetKingMoves(bb: Bitboard): (moves: Bitboard)
      reads kingMoves
      requires KingReady() && bb != 0
      ensures moves == KingMoves(BitScanForward(bb))
    {
      kingMoves[BitScanForward(bb)]
    }

    /** bitboard_getKnightMoves */
    function GetKnightMoves(bb: Bitboard): (moves: Bitboard)
      reads knightMoves
      requires KnightReady() && bb != 0
      ensures moves == KnightMoves(BitScanForward(bb))
    {
      knightMoves[BitScanForward(bb)]
    }

    /** bitboard_getFile */
    function GetFile(bb: Bitboard): (mask: Bitboard)
      reads fileMask, rankMask, diagNE, diagNW
      requires LinesReady() && bb != 0
      ensures mask == FileMask(BitScanForward(bb))
    {
      fileMask[BitScanForward(bb)]
    }

    /** bitboard_getRank */
    function GetRank(bb: Bitboard): (mask: Bitboard)
      reads fileMask, rankMask, diagNE, diagNW
      requires LinesReady() && bb != 0
      ensures mask == RankMask(BitScanForward(bb))
    {
      rankMask[BitScanForward(bb)]
    }

    /** bitboard_getDiagNE */
    function GetDiagNE(bb: Bitboard): (mask: Bitboard)
      reads fileMask, rankMask, diagNE, diagNW
      requires LinesReady() && bb != 0
      ensures mask == DiagNE(BitScanForward(bb))
    {
      diagNE[BitScanForward(bb)]
    }

    /** bitboard_getDiagNW */
    function GetDiagNW(bb: Bitboard): (mask: Bitboard)
      reads fileMask, rankMask, diagNE, diagNW
      requires LinesReady() && bb != 0
      ensures mask == DiagNW(BitScanForward(bb))
    {
      diagNW[BitScanForward(bb)]
    }

    /** bitboard_getObstructed */
    function GetObstructed(from: Bitboard, to: Bitboard): (mask: Bitboard)
      reads obstructed
      requires ObstructedReady() && from != 0 && to != 0
      ensures mask == Obstructed(BitScanForward(from), BitScanForward(to))
    {
      obstructed[BitScanForward(from), BitScanForward(to)]
    }

    /** On a one-square board every lookup returns the mask of that very square. */
    lemma LookupsOnSquare(s: Square, t: Square)
      requires Ready()
      ensures GetKingMoves(Sq64(s)) == KingMoves(s) && GetKnightMoves(Sq64(s)) == KnightMoves(s)
      ensures GetFile(Sq64(s)) == FileMask(s) && GetRank(Sq64(s)) == RankMask(s)
      ensures GetDiagNE(Sq64(s)) == DiagNE(s) && GetDiagNW(Sq64(s)) == DiagNW(s)
      ensures GetObstructed(Sq64(s), Sq64(t)) == Obstructed(s, t)
    {
      BitScanForwardSq64(s);
      BitScanForwardSq64(t);
    }

    /** algToBin(binToAlg(SQ64(s))) == SQ64(s) for every square. */
    lemma AlgBinRoundTrip(s: Square)
      requires NamesReady()
      ensures Sq64(s) != 0 && AlgBoard(BinToAlg(Sq64(s))) == Sq64(s)
    {
      BitScanForwardSq64(s);
      NameRoundTrip(s);
    }
  }

  /**
   * The two inner loops of gen_diag_ne / gen_diag_nw for one diagonal:
   * gather the `n` squares start + step*j, then copy the gathered mask to
   * each of them.  Every square of the ray ends up holding the ray; every
   * other square is untouched.
   */
  method GenDiagonal(a: array<Bitboard>, start: int, step: int, n: nat)
    requires a.Length == 64 && 0 <= start < 64 && 0 < n && OnBoard(start, step, n)
    modifies a
    ensures a[..] == Spread(old(a[..]), start, step, n)
  {
    var ray := GatherRay(start, step, n);
    RaySetHasStart(start, step, n);
    a[start] := ray;
    SpreadRay(a, start, step, n);
    assert forall x :: 0 <= x < 64 ==> a[..][x] == Spread(old(a[..]), start, step, n)[x];
  }

  /** The table after one diagonal: the ray's squares hold the ray's mask, the other squares keep their entry. */
  ghost function Spread(t: seq<Bitboard>, start: int, step: int, n: nat): (r: seq<Bitboard>)
    ensures |r| == |t|
  {
    seq(|t|, x requires 0 <= x < |t| => if x in RaySet(start, step, n) then StepRay(start, step, n) else t[x])
  }

  /** A board index converted to a square and back is unchanged. */
  lemma IntSquare(x: int)
    requires 0 <= x < 64
    ensures (x as Square) as int == x
  {}

  /** Every square start + step*j, j < n, is on the board. */
  predicate OnBoard(start: int, step: int, n: nat) {
    forall j :: 0 <= j < n ==> 0 <= RaySquare(start, step, j) < 64
  }

  /** First inner loop: the OR of SQ64 over the ray's squares. */
  method GatherRay(start: int, step: int, n: nat) returns (m: Bitboard)
    ensures m == StepRay(start, step, n)
  {
    m := EMPTY;
    for j := 0 to n
      invariant m == StepRay(start, step, j)
    {
      m := m | SqBit(RaySquare(start, step, j));
    }
  }

  /** Second inner loop: a[start] is copied to every square of the ray, which includes `start`. */
  method SpreadRay(a: array<Bitboard>, start: int, step: int, n: nat)
    requires a.Length == 64 && 0 <= start < 64 && OnBoard(start, step, n) && start in RaySet(start, step, n)
    modifies a
    ensures forall x :: 0 <= x < 64 && x in RaySet(start, step, n) ==> a[x] == old(a[start])
    ensures forall x :: 0 <= x < 64 && x !in RaySet(start, step, n) ==> a[x] == old(a[x])
  {
    ghost var m := a[start];
    for j := 0 to n
      invariant a[start] == m
      invariant forall x :: 0 <= x < 64 && x in RaySet(start, step, j) ==> a[x] == m
      invariant forall x :: 0 <= x < 64 && x !in RaySet(start, step, j) ==> a[x] == old(a[x])
    {
      a[RaySquare(start, step, j)] := a[start];
    }
  }

  /** The j-th square of the ray from `start` by `step`. */
  function RaySquare(start: int, step: int, j: int): int {
    start + step * j
  }

  /** SQ64 of a square number; numbers off the board have no square. */
  function SqBit(x: int): Bitboard {
    if 0 <= x < 64 then Sq64(x as Square) else EMPTY
  }

  /** OR of SQ64(start + step*j) for j < n: the mask a generator gathers. */
  function StepRay(start: int, step: int, n: nat): Bitboard {
    if n == 0 then EMPTY else StepRay(start, step, n - 1) | SqBit(RaySquare(start, step, n - 1))
  }

  /** The square numbers start + step*j for j < n. */
  ghost function RaySet(start: int, step: int, n: nat): set<int> {
    if n == 0 then {} else RaySet(start, step, n - 1) + {RaySquare(start, step, n - 1)}
  }

  lemma {:induction false} RaySetHasStart(start: int, step: int, n: nat)
    requires 0 < n
    ensures start in RaySet(start, step, n)
  {
    if n > 1 {
      RaySetHasStart(start, step, n - 1);
    }
  }

  lemma SqBitHas(x: int, t: Square)
    ensures Has(SqBit(x), t) <==> x == t as int
  {
    if 0 <= x < 64 {
      Sq64Has(x as Square, t);
      SquareIntEq(x, t);
    } else {
      EmptyHas(t);
    }
  }

  /** The gathered mask holds exactly the ray's squares. */
  lemma {:induction false} StepRayHas(start: int, step: int, n: nat, t: Square)
    ensures Has(StepRay(start, step, n), t) <==> t as int in RaySet(start, step, n)
  {
    if n == 0 {
      EmptyHas(t);
    } else {
      StepRayHas(start, step, n - 1, t);
      OrHas(StepRay(start, step, n - 1), SqBit(RaySquare(start, step, n - 1)), t);
      SqBitHas(RaySquare(start, step, n - 1), t);
    }
  }

  /* Which square numbers each ray covers, by rank x / 8 and file x % 8. */

  lemma {:induction false} LowerNEMembers(i: int, n: nat, x: int)
    requires 0 <= i < 8 && n <= 8 - i
    ensures x in RaySet(i, 9, n) <==> 0 <= x < 64 && x % 8 - x / 8 == i && x / 8 < n
  {
    if n > 0 {
      LowerNEMembers(i, n - 1, x);
      DivMod8(RaySquare(i, 9, n - 1), n - 1, i + (n - 1));
      DivMod8(x, x / 8, x % 8);
    }
  }

  lemma {:induction false} UpperNEMembers(i: int, n: nat, x: int)
    requires 56 <= i < 64 && n <= i - 55
    ensures x in RaySet(i, -9, n) <==> 0 <= x < 64 && x / 8 - x % 8 == 63 - i && 7 - x / 8 < n
  {
    if n > 0 {
      UpperNEMembers(i, n - 1, x);
      DivMod8(RaySquare(i, -9, n - 1), 7 - (n - 1), i - 56 - (n - 1));
      DivMod8(x, x / 8, x % 8);
    }
  }

  lemma {:induction false} LowerNWMembers(i: int, n: nat, x: int)
    requires 0 <= i < 8 && n <= i + 1
    ensures x in RaySet(i, 7, n) <==> 0 <= x < 64 && x / 8 + x % 8 == i && x / 8 < n
  {
    if n > 0 {
      LowerNWMembers(i, n - 1, x);
      DivMod8(RaySquare(i, 7, n - 1), n - 1, i - (n - 1));
      DivMod8(x, x / 8, x % 8);
    }
  }

  lemma {:induction false} UpperNWMembers(i: int, n: nat, x: int)
    requires 56 <= i < 64 && n <= 64 - i
    ensures x in RaySet(i, -7, n) <==> 0 <= x < 64 && x / 8 + x % 8 == i - 49 && 7 - x / 8 < n
  {
    if n > 0 {
      UpperNWMembers(i, n - 1, x);
      DivMod8(RaySquare(i, -7, n - 1), 7 - (n - 1), i - 56 + (n - 1));
      DivMod8(x, x / 8, x % 8);
    }
  }

  lemma DivMod8(x: int, r: int, f: int)
    requires 0 <= f < 8 && x == 8 * r + f
    ensures x / 8 == r && x % 8 == f
  {
  }

  /** Same diagonal, stated on the int rank and file. */
  lemma SameDiagInt(s: Square, t: Square)
    ensures SameDiagNE(s, t) <==> RankOf(s) as int - FileOf(s) as int == RankOf(t) as int - FileOf(t) as int
    ensures SameDiagNW(s, t) <==> RankOf(s) as int + FileOf(s) as int == RankOf(t) as int + FileOf(t) as int
  {
  }

  /* Each gathered ray is the diagonal mask of every square on it. */

  lemma LowerNEIsDiag(i: int, s: Square)
    requires 0 <= i < 8 && s as int in RaySet(i, 9, 8 - i)
    ensures StepRay(i, 9, 8 - i) == DiagNE(s)
  {
    forall t: Square ensures Has(StepRay(i, 9, 8 - i), t) <==> Has(DiagNE(s), t) {
      LowerNEIsDiagAt(i, s, t);
    }
    BoardExt(StepRay(i, 9, 8 - i), DiagNE(s));
  }

  lemma LowerNEIsDiagAt(i: int, s: Square, t: Square)
    requires 0 <= i < 8 && s as int in RaySet(i, 9, 8 - i)
    ensures Has(StepRay(i, 9, 8 - i), t) <==> Has(DiagNE(s), t)
  {
    LowerNESameRay(i, s as int, t as int);
    SameNEInt(s, t);
    StepRayHas(i, 9, 8 - i, t);
    DiagNEHas(s, t);
  }

  lemma LowerNESameRay(i: int, x: int, y: int)
    requires 0 <= i < 8 && x in RaySet(i, 9, 8 - i) && 0 <= y < 64
    ensures y in RaySet(i, 9, 8 - i) <==> y % 8 - y / 8 == x % 8 - x / 8
  {
    LowerNEMembers(i, 8 - i, x);
    LowerNEMembers(i, 8 - i, y);
  }

  lemma UpperNEIsDiag(i: int, s: Square)
    requires 56 <= i < 64 && s as int in RaySet(i, -9, i - 55)
    ensures StepRay(i, -9, i - 55) == DiagNE(s)
  {
    forall t: Square ensures Has(StepRay(i, -9, i - 55), t) <==> Has(DiagNE(s), t) {
      UpperNEIsDiagAt(i, s, t);
    }
    BoardExt(StepRay(i, -9, i - 55), DiagNE(s));
  }

  lemma UpperNEIsDiagAt(i: int, s: Square, t: Square)
    requires 56 <= i < 64 && s as int in RaySet(i, -9, i - 55)
    ensures Has(StepRay(i, -9, i - 55), t) <==> Has(DiagNE(s), t)
  {
    UpperNESameRay(i, s as int, t as int);
    SameNEInt(s, t);
    StepRayHas(i, -9, i - 55, t);
    DiagNEHas(s, t);
  }

  lemma UpperNESameRay(i: int, x: int, y: int)
    requires 56 <= i < 64 && x in RaySet(i, -9, i - 55) && 0 <= y < 64
    ensures y in RaySet(i, -9, i - 55) <==> y % 8 - y / 8 == x % 8 - x / 8
  {
    UpperNEMembers(i, i - 55, x);
    UpperNEMembers(i, i - 55, y);
  }

  lemma LowerNWIsDiag(i: int, s: Square)
    requires 0 <= i < 8 && s as int in RaySet(i, 7, i + 1)
    ensures StepRay(i, 7, i + 1) == DiagNW(s)
  {
    forall t: Square ensures Has(StepRay(i, 7, i + 1), t) <==> Has(DiagNW(s), t) {
      LowerNWIsDiagAt(i, s, t);
    }
    BoardExt(StepRay(i, 7, i + 1), DiagNW(s));
  }

  lemma LowerNWIsDiagAt(i: int, s: Square, t: Square)
    requires 0 <= i < 8 && s as int in RaySet(i, 7, i + 1)
    ensures Has(StepRay(i, 7, i + 1), t) <==> Has(DiagNW(s), t)
  {
    LowerNWSameRay(i, s as int, t as int);
    SameNWInt(s, t);
    StepRayHas(i, 7, i + 1, t);
    DiagNWHas(s, t);
  }

  lemma LowerNWSameRay(i: int, x: int, y: int)
    requires 0 <= i < 8 && x in RaySet(i, 7, i + 1) && 0 <= y < 64
    ensures y in RaySet(i, 7, i + 1) <==> y / 8 + y % 8 == x / 8 + x % 8
  {
    LowerNWMembers(i, i + 1, x);
    LowerNWMembers(i, i + 1, y);
  }

  lemma UpperNWIsDiag(i: int, s: Square)
    requires 56 <= i < 64 && s as int in RaySet(i, -7, 64 - i)
    ensures StepRay(i, -7, 64 - i) == DiagNW(s)
  {
    forall t: Square ensures Has(StepRay(i, -7, 64 - i), t) <==> Has(DiagNW(s), t) {
      UpperNWIsDiagAt(i, s, t);
    }
    BoardExt(StepRay(i, -7, 64 - i), DiagNW(s));
  }

  lemma UpperNWIsDiagAt(i: int, s: Square, t: Square)
    requires 56 <= i < 64 && s as int in RaySet(i, -7, 64 - i)
    ensures Has(StepRay(i, -7, 64 - i), t) <==> Has(DiagNW(s), t)
  {
    UpperNWSameRay(i, s as int, t as int);
    SameNWInt(s, t);
    StepRayHas(i, -7, 64 - i, t);
    DiagNWHas(s, t);
  }

  lemma UpperNWSameRay(i: int, x: int, y: int)
    requires 56 <= i < 64 && x in RaySet(i, -7, 64 - i) && 0 <= y < 64
    ensures y in RaySet(i, -7, 64 - i) <==> y / 8 + y % 8 == x / 8 + x % 8
  {
    UpperNWMembers(i, 64 - i, x);
    UpperNWMembers(i, 64 - i, y);
  }

  /** SameDiagNE on the int square numbers. */
  lemma SameNEInt(s: Square, t: Square)
    ensures SameDiagNE(s, t) <==> s as int % 8 - s as int / 8 == t as int % 8 - t as int / 8
  {
    RankFileInt(s);
    RankFileInt(t);
    SameDiagInt(s, t);
  }

  /** SameDiagNW on the int square numbers. */
  lemma SameNWInt(s: Square, t: Square)
    ensures SameDiagNW(s, t) <==> s as int / 8 + s as int % 8 == t as int / 8 + t as int % 8
  {
    RankFileInt(s);
    RankFileInt(t);
    SameDiagInt(s, t);
  }

  /** The north-east diagonals done so far: those from rank-1 files below `lower` and from rank-8 squares below `upper`. */
  ghost predicate NEReady(t: seq<Bitboard>, lower: int, upper: int) {
    |t| == 64 && forall s: Square :: LowerNEDone(s as int, lower) || UpperNEDone(s as int, upper) ==> t[s] == DiagNE(s)
  }

  /** The north-west diagonals done so far, in the same sense. */
  ghost predicate NWReady(t: seq<Bitboard>, lower: int, upper: int) {
    |t| == 64 && forall s: Square :: LowerNWDone(s as int, lower) || UpperNWDone(s as int, upper) ==> t[s] == DiagNW(s)
  }

  /** One pass of the bottom-half loop of gen_diag_ne. */
  lemma LowerNEPass(i: int, t: seq<Bitboard>, u: seq<Bitboard>)
    requires 0 <= i < 8 && NEReady(t, i, 56)
    requires u == Spread(t, i, 9, 8 - i)
    ensures NEReady(u, i + 1, 56)
  {
    var r := Spread(t, i, 9, 8 - i);
    forall s: Square | LowerNEDone(s as int, i + 1) || UpperNEDone(s as int, 56) ensures r[s] == DiagNE(s) {
      LowerNENext(i, s, t[s], r[s]);
    }
  }

  /** One pass of the top-half loop of gen_diag_ne. */
  lemma UpperNEPass(i: int, t: seq<Bitboard>, u: seq<Bitboard>)
    requires 56 <= i < 64 && NEReady(t, 8, i)
    requires u == Spread(t, i, -9, i - 55)
    ensures NEReady(u, 8, i + 1)
  {
    var r := Spread(t, i, -9, i - 55);
    forall s: Square | LowerNEDone(s as int, 8) || UpperNEDone(s as int, i + 1) ensures r[s] == DiagNE(s) {
      UpperNENext(i, s, t[s], r[s]);
    }
  }

  /** One pass of the bottom-half loop of gen_diag_nw. */
  lemma LowerNWPass(i: int, t: seq<Bitboard>, u: seq<Bitboard>)
    requires 0 <= i < 8 && NWReady(t, i, 56)
    requires u == Spread(t, i, 7, i + 1)
    ensures NWReady(u, i + 1, 56)
  {
    var r := Spread(t, i, 7, i + 1);
    forall s: Square | LowerNWDone(s as int, i + 1) || UpperNWDone(s as int, 56) ensures r[s] == DiagNW(s) {
      LowerNWNext(i, s, t[s], r[s]);
    }
  }

  /** One pass of the top-half loop of gen_diag_nw. */
  lemma UpperNWPass(i: int, t: seq<Bitboard>, u: seq<Bitboard>)
    requires 56 <= i < 64 && NWReady(t, 8, i)
    requires u == Spread(t, i, -7, 64 - i)
    ensures NWReady(u, 8, i + 1)
  {
    var r := Spread(t, i, -7, 64 - i);
    forall s: Square | LowerNWDone(s as int, 8) || UpperNWDone(s as int, i + 1) ensures r[s] == DiagNW(s) {
      UpperNWNext(i, s, t[s], r[s]);
    }
  }

  /* Progress of the generator loops, on square numbers.  Each *Next lemma
     takes one square's entry before and after the pass over diagonal `i`. */

  lemma LowerNENext(i: int, s: Square, before: Bitboard, after: Bitboard)
    requires 0 <= i < 8 && LowerNEDone(s as int, i + 1)
    requires LowerNEDone(s as int, i) ==> before == DiagNE(s)
    requires s as int in RaySet(i, 9, 8 - i) ==> after == StepRay(i, 9, 8 - i)
    requires s as int !in RaySet(i, 9, 8 - i) ==> after == before
    ensures after == DiagNE(s)
  {
    LowerNEMembers(i, 8 - i, s as int);
    if s as int in RaySet(i, 9, 8 - i) { LowerNEIsDiag(i, s); }
  }

  lemma UpperNENext(i: int, s: Square, before: Bitboard, after: Bitboard)
    requires 56 <= i < 64 && (LowerNEDone(s as int, 8) || UpperNEDone(s as int, i + 1))
    requires LowerNEDone(s as int, 8) || UpperNEDone(s as int, i) ==> before == DiagNE(s)
    requires s as int in RaySet(i, -9, i - 55) ==> after == StepRay(i, -9, i - 55)
    requires s as int !in RaySet(i, -9, i - 55) ==> after == before
    ensures after == DiagNE(s)
  {
    UpperNEMembers(i, i - 55, s as int);
    if s as int in RaySet(i, -9, i - 55) { UpperNEIsDiag(i, s); }
  }

  lemma LowerNWNext(i: int, s: Square, before: Bitboard, after: Bitboard)
    requires 0 <= i < 8 && LowerNWDone(s as int, i + 1)
    requires LowerNWDone(s as int, i) ==> before == DiagNW(s)
    requires s as int in RaySet(i, 7, i + 1) ==> after == StepRay(i, 7, i + 1)
    requires s as int !in RaySet(i, 7, i + 1) ==> after == before
    ensures after == DiagNW(s)
  {
    LowerNWMembers(i, i + 1, s as int);
    if s as int in RaySet(i, 7, i + 1) { LowerNWIsDiag(i, s); }
  }

  lemma UpperNWNext(i: int, s: Square, before: Bitboard, after: Bitboard)
    requires 56 <= i < 64 && (LowerNWDone(s as int, 8) || UpperNWDone(s as int, i + 1))
    requires LowerNWDone(s as int, 8) || UpperNWDone(s as int, i) ==> before == DiagNW(s)
    requires s as int in RaySet(i, -7, 64 - i) ==> after == StepRay(i, -7, 64 - i)
    requires s as int !in RaySet(i, -7, 64 - i) ==> after == before
    ensures after == DiagNW(s)
  {
    UpperNWMembers(i, 64 - i, s as int);
    if s as int in RaySet(i, -7, 64 - i) { UpperNWIsDiag(i, s); }
  }

  /** On or below the a1-h8 diagonal, on a diagonal starting at a rank-1 file below `i`. */
  predicate LowerNEDone(x: int, i: int) { x % 8 >= x / 8 && x % 8 - x / 8 < i }

  /** Above the a1-h8 diagonal, on a diagonal starting at a rank-8 square below `i`. */
  predicate UpperNEDone(x: int, i: int) { x / 8 >= x % 8 && x / 8 - x % 8 > 63 - i }

  /** On a north-west diagonal starting at a rank-1 square below `i`. */
  predicate LowerNWDone(x: int, i: int) { x / 8 + x % 8 < i }

  /** On a north-west diagonal starting at a rank-8 square below `i`. */
  predicate UpperNWDone(x: int, i: int) { 7 <= x / 8 + x % 8 < i - 49 }

  /** Square number `count` = 8*i + j lies on the file `FILEA << j`. */
  lemma FileAt(i: int, j: int, count: int)
    requires 0 <= i < 8 && 0 <= j < 8 && count == 8 * i + j
    ensures FileMask(count as Square) == FILEA << j
  {
    CountSquare(i as Square, j as Square, count);
  }

  /** Square number `count` = 8*i + j lies on the rank `RANK1 << (8 * i)`. */
  lemma RankAt(i: int, j: int, count: int)
    requires 0 <= i < 8 && 0 <= j < 8 && count == 8 * i + j
    ensures RankMask(count as Square) == RANK1 << (8 * i)
  {
    CountSquare(i as Square, j as Square, count);
  }

  /** Square number `count` = 8*i + j, counted as an int, has rank `i` and file `j`. */
  lemma CountSquare(i: Square, j: Square, count: int)
    requires i < 8 && j < 8 && count == 8 * i as int + j as int
    ensures RankOf(count as Square) == i && FileOf(count as Square) == j
  {
    FileOfCount(i, j, count as bv7);
  }

  /** Square `count` = 8*i + j has rank `i` and file `j`. */
  lemma FileOfCount(i: Square, j: Square, count: bv7)
    requires i < 8 && j < 8 && count == 8 * (i as bv7) + (j as bv7)
    ensures RankOf(count as Square) == i && FileOf(count as Square) == j
  {
  }
}
