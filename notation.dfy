/**
 * Algebraic square names ("a1" .. "h8") and bitboard_algToBin, which turns
 * the first two characters of a C string back into a one-square board.
 */
module Notation {
  import opened Bits

  /** The file letters and rank digits, a-file and first rank first. */
  const FILE_LETTERS: seq<char> := ['a', 'b', 'c', 'd', 'e', 'f', 'g', 'h']
  const RANK_DIGITS: seq<char> := ['1', '2', '3', '4', '5', '6', '7', '8']

  /** Character `i` of a C string: past the end of the text it reads the terminating '\0'. */
  function CharAt(s: string, i: nat): char {
    if i < |s| then s[i] else '\0'
  }

  predicate IsFileLetter(c: char) { 'a' <= c <= 'h' }
  predicate IsRankDigit(c: char) { '1' <= c <= '8' }

  function FileIndex(c: char): int { c as int - 'a' as int }
  function RankIndex(c: char): int { c as int - '1' as int }

  /** The name bitboard_init writes into bin2alg for `s`: its file letter, then its rank digit. */
  function SquareName(s: Square): (name: string)
    ensures |name| == 2 && IsFileLetter(name[0]) && IsRankDigit(name[1])
    ensures FileIndex(name[0]) == FileOf(s) as int && RankIndex(name[1]) == RankOf(s) as int
  {
    RankFileInt(s);
    NameInt(s as int)
  }

  /** The same name for a square number counted as an int, as the init loop counts. */
  function NameInt(x: int): (name: string)
    requires 0 <= x < 64
    ensures |name| == 2 && IsFileLetter(name[0]) && IsRankDigit(name[1])
    ensures FileIndex(name[0]) == x % 8 && RankIndex(name[1]) == x / 8
  {
    [FILE_LETTERS[x % 8], RANK_DIGITS[x / 8]]
  }

  /** The square a well-formed name denotes. */
  function NamedSquare(fileChar: char, rankChar: char): (s: Square)
    requires IsFileLetter(fileChar) && IsRankDigit(rankChar)
    ensures FileOf(s) as int == FileIndex(fileChar) && RankOf(s) as int == RankIndex(rankChar)
  {
    var s := SquareAt(RankIndex(rankChar) as Square, FileIndex(fileChar) as Square);
    RankFileInt(s);
    s
  }

  /**
   * What bitboard_algToBin returns for `alg`: the board of the named square
   * when the first character is a file letter and the second a rank digit,
   * otherwise the empty board (one of the two masks stays 0).
   */
  function AlgBoard(alg: string): Bitboard {
    var f, r := CharAt(alg, 0), CharAt(alg, 1);
    if IsFileLetter(f) && IsRankDigit(r) then Sq64(NamedSquare(f, r)) else EMPTY
  }

  /**
   * bitboard_algToBin: scan the eight letters and digits, remembering the file
   * mask of the letter matching alg[0] and the rank mask of the digit matching
   * alg[1]; the result is their intersection.
   */
  method AlgToBin(alg: string) returns (bb: Bitboard)
    ensures bb == AlgBoard(alg)
  {
    var rank := EMPTY;
    var file := EMPTY;
    var c0, c1 := CharAt(alg, 0), CharAt(alg, 1);
    for i := 0 to 8
      invariant file == if IsFileLetter(c0) && FileIndex(c0) < i then FILES[FileIndex(c0)] else EMPTY
      invariant rank == if IsRankDigit(c1) && RankIndex(c1) < i then RANKS[RankIndex(c1)] else EMPTY
    {
      LettersAt(i);
      if c0 == FILE_LETTERS[i] {
        file := FILES[i];
      }
      if c1 == RANK_DIGITS[i] {
        rank := RANKS[i];
      }
    }
    bb := rank & file;
    MasksMeet(c0, c1, rank, file);
  }

  /** The i-th letter and digit are 'a' + i and '1' + i. */
  lemma LettersAt(i: int)
    requires 0 <= i < 8
    ensures FILE_LETTERS[i] as int == 'a' as int + i && RANK_DIGITS[i] as int == '1' as int + i
  {
  }

  /** The final `rank & file` of algToBin is the named square's board, or empty. */
  lemma MasksMeet(c0: char, c1: char, rank: Bitboard, file: Bitboard)
    requires file == if IsFileLetter(c0) then FILES[FileIndex(c0)] else EMPTY
    requires rank == if IsRankDigit(c1) then RANKS[RankIndex(c1)] else EMPTY
    ensures rank & file == if IsFileLetter(c0) && IsRankDigit(c1) then Sq64(NamedSquare(c0, c1)) else EMPTY
  {
    if IsFileLetter(c0) && IsRankDigit(c1) {
      RankFileBoards(NamedSquare(c0, c1));
    } else {
      ZeroMeet(rank, file);
    }
  }

  lemma ZeroMeet(x: Bitboard, y: Bitboard)
    requires x == 0 || y == 0
    ensures x & y == 0
  {
  }

  /** The rank and file constants of a square's own rank and file meet in that square alone. */
  lemma RankFileBoards(s: Square)
    ensures RANKS[RankOf(s) as int] & FILES[FileOf(s) as int] == Sq64(s)
  {
    RankConstants();
    FileConstants();
    RankFileMeet(RankOf(s), FileOf(s));
    SquareNumbering(s);
  }

  /** algToBin(binToAlg(SQ64(s))) == SQ64(s): a square's name reads back as that square. */
  lemma NameRoundTrip(s: Square)
    ensures AlgBoard(SquareName(s)) == Sq64(s)
  {
    var name := SquareName(s);
    var t := NamedSquare(name[0], name[1]);
    SquareNumbering(s);
    SquareNumbering(t);
  }

  /** Distinct squares have distinct names. */
  lemma NamesDistinct(s: Square, t: Square)
    requires SquareName(s) == SquareName(t)
    ensures s == t
  {
    SquareNumbering(s);
    SquareNumbering(t);
  }

  /** algToBin returns 0 whenever either character is out of range, whatever follows. */
  lemma OutOfRangeIsEmpty(alg: string)
    requires !IsFileLetter(CharAt(alg, 0)) || !IsRankDigit(CharAt(alg, 1))
    ensures AlgBoard(alg) == EMPTY
  {
  }

  /** The reference names and squares of the bin2alg test. */
  lemma NameReference()
    ensures SquareName(A1) == "a1" && SquareName(A2) == "a2" && SquareName(B2) == "b2"
    ensures SquareName(H8) == "h8" && SquareName(E4) == "e4"
    ensures AlgBoard("h8") == Sq64(H8) && AlgBoard("e4") == Sq64(E4) && AlgBoard("a1") == Sq64(A1)
  {
    NameRoundTrip(H8);
    NameRoundTrip(E4);
    NameRoundTrip(A1);
  }
}
