/**
 * Piece identities (src/pieces.h) and get_piece_letter (src/pieces.c).
 *
 * The twelve coloured pieces are numbered so that the white piece of a kind
 * is even and the black one is the next odd number: `X + side` selects the
 * piece of kind X for side 0 (white) or 1 (black).  NONE_PIECE is 12.
 */
module Pieces {
  import opened Wrappers

  const P: int := 0
  const p: int := 1
  const K: int := 2
  const k: int := 3
  const Q: int := 4
  const q: int := 5
  const N: int := 6
  const n: int := 7
  const B: int := 8
  const b: int := 9
  const R: int := 10
  const r: int := 11
  const NONE_PIECE: int := 12

  const WHITE: int := 0
  const BLACK: int := 1

  /** One of the twelve coloured pieces. */
  predicate IsPiece(x: int) { 0 <= x < 12 }

  /** A side to move: WHITE or BLACK. */
  predicate IsSide(s: int) { s == WHITE || s == BLACK }

  /** The side a piece belongs to. */
  function ColorOf(x: int): int
    requires IsPiece(x)
  {
    x % 2
  }

  /** The piece of the kind `kind` (a white piece) for side `side`. */
  function OfSide(kind: int, side: int): (x: int)
    requires IsPiece(kind) && ColorOf(kind) == WHITE && IsSide(side)
    ensures IsPiece(x) && ColorOf(x) == side && x / 2 == kind / 2
  {
    kind + side
  }

  predicate IsUpper(c: char) { 'A' <= c <= 'Z' }
  predicate IsLower(c: char) { 'a' <= c <= 'z' }

  /** get_piece_letter: the FEN letter of a piece, '0' for NONE_PIECE, ' ' for anything else. */
  function PieceLetter(x: int): (c: char)
    ensures IsPiece(x) ==> (IsUpper(c) <==> ColorOf(x) == WHITE) && (IsLower(c) <==> ColorOf(x) == BLACK)
    ensures x == NONE_PIECE ==> c == '0'
    ensures !IsPiece(x) && x != NONE_PIECE ==> c == ' '
  {
    if x == P then 'P'
    else if x == K then 'K'
    else if x == Q then 'Q'
    else if x == N then 'N'
    else if x == B then 'B'
    else if x == R then 'R'
    else if x == p then 'p'
    else if x == k then 'k'
    else if x == q then 'q'
    else if x == n then 'n'
    else if x == b then 'b'
    else if x == r then 'r'
    else if x == NONE_PIECE then '0'
    else ' '
  }

  /**
   * The piece a letter of the FEN board field places (the switch of
   * position_fromFen); None for every character that is not a piece letter.
   */
  function FenPiece(c: char): (x: Option<int>)
    ensures x.Some? ==> IsPiece(x.value)
    ensures x.Some? ==> (ColorOf(x.value) == WHITE <==> IsUpper(c))
  {
    match c
    case 'P' => Some(P)
    case 'K' => Some(K)
    case 'Q' => Some(Q)
    case 'N' => Some(N)
    case 'B' => Some(B)
    case 'R' => Some(R)
    case 'p' => Some(p)
    case 'k' => Some(k)
    case 'q' => Some(q)
    case 'n' => Some(n)
    case 'b' => Some(b)
    case 'r' => Some(r)
    case _ => None
  }

  /** Each letter get_piece_letter produces is read back by the FEN parser as the same piece. */
  lemma LetterRoundTrip(x: int)
    requires IsPiece(x)
    ensures FenPiece(PieceLetter(x)) == Some(x)
  {
  }

  /** Conversely, every letter the FEN parser accepts is the letter of the piece it places. */
  lemma FenLetterRoundTrip(c: char)
    requires FenPiece(c).Some?
    ensures PieceLetter(FenPiece(c).value) == c
  {
  }

  /** Distinct pieces have distinct letters. */
  lemma LettersInjective(x: int, y: int)
    requires IsPiece(x) && IsPiece(y) && PieceLetter(x) == PieceLetter(y)
    ensures x == y
  {
    LetterRoundTrip(x);
    LetterRoundTrip(y);
  }

  /** The black piece's letter is the lower-case form of the white piece's letter. */
  lemma BlackIsLowerCase(x: int)
    requires IsPiece(x) && ColorOf(x) == WHITE
    ensures PieceLetter(x + 1) as int == PieceLetter(x) as int + ('a' as int - 'A' as int)
  {
  }
}
