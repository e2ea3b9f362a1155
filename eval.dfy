/**
 * Material evaluation (src/eval.c): ten per pawn, ninety per queen, thirty
 * per knight or bishop, sixty per rook, white minus black, seen from the
 * side to move.  Kings carry no weight.
 */
module Eval {
  import opened Bits
  import opened Pieces
  import opened Moves

  /** The score of a won position (src/eval.h). */
  const INFINITY: int := 10000

  /** eval_position: the material balance, negated when black is to move. */
  function EvalPosition(ps: seq<Bitboard>, side: int): int
    requires |ps| == 12 && IsSide(side)
  {
    var who2move := if side == WHITE then 1 else -1;
    Material(ps) * who2move
  }

  /** The material balance from white's point of view, term by term as eval_position adds it up. */
  function Material(ps: seq<Bitboard>): int
    requires |ps| == 12
  {
    10 * (PopCount(ps[P]) - PopCount(ps[p])) +
    90 * (PopCount(ps[Q]) - PopCount(ps[q])) +
    30 * (PopCount(ps[N]) - PopCount(ps[n])) +
    30 * (PopCount(ps[B]) - PopCount(ps[b])) +
    60 * (PopCount(ps[R]) - PopCount(ps[r]))
  }

  /** eval_move: every move is worth the same. */
  function EvalMove(m: Move): (v: int)
    ensures v == 1
  {
    1
  }

  /* ---------------------------------------------------------------- */
  /* A reference definition: a weighted sum over the twelve boards      */
  /* ---------------------------------------------------------------- */

  /** The worth of one piece of kind `x` for white: positive for white, negative for black, zero for kings. */
  function Worth(x: int): int
    requires IsPiece(x)
  {
    var weight :=
      if x == P || x == p then 10
      else if x == Q || x == q then 90
      else if x == N || x == n || x == B || x == b then 30
      else if x == R || x == r then 60
      else 0;
    if ColorOf(x) == WHITE then weight else -weight
  }

  /** The worth of every piece on the boards `from` to 11. */
  function WeightedSum(ps: seq<Bitboard>, from: nat): int
    requires |ps| == 12 && from <= 12
    decreases 12 - from
  {
    if from == 12 then 0 else Worth(from) * PopCount(ps[from]) + WeightedSum(ps, from + 1)
  }

  /** The material balance is the sum, over every piece on the board, of its signed weight. */
  lemma {:induction false} MaterialIsWeightedSum(ps: seq<Bitboard>)
    requires |ps| == 12
    ensures Material(ps) == WeightedSum(ps, 0)
  {
    assert Worth(P) == 10 && Worth(p) == -10 && Worth(K) == 0 && Worth(k) == 0;
    assert Worth(Q) == 90 && Worth(q) == -90 && Worth(N) == 30 && Worth(n) == -30;
    assert Worth(B) == 30 && Worth(b) == -30 && Worth(R) == 60 && Worth(r) == -60;
    var s10 := WeightedSum(ps, 10);
    var s8 := WeightedSum(ps, 8);
    var s6 := WeightedSum(ps, 6);
    var s4 := WeightedSum(ps, 4);
    var s2 := WeightedSum(ps, 2);
    assert s10 == 60 * PopCount(ps[R]) - 60 * PopCount(ps[r]);
    assert s8 == 30 * PopCount(ps[B]) - 30 * PopCount(ps[b]) + s10;
    assert s6 == 30 * PopCount(ps[N]) - 30 * PopCount(ps[n]) + s8;
    assert s4 == 90 * PopCount(ps[Q]) - 90 * PopCount(ps[q]) + s6;
    assert s2 == s4;
  }

  /* ---------------------------------------------------------------- */
  /* Properties of the score                                           */
  /* ---------------------------------------------------------------- */

  /** The score is relative to the side to move: the same boards score opposite for the two sides. */
  lemma SideToMoveNegates(ps: seq<Bitboard>)
    requires |ps| == 12
    ensures EvalPosition(ps, BLACK) == -EvalPosition(ps, WHITE)
  {
  }

  /** Kings never count: replacing either king's board leaves the score alone. */
  lemma KingsIgnored(ps: seq<Bitboard>, side: int, white: Bitboard, black: Bitboard)
    requires |ps| == 12 && IsSide(side)
    ensures EvalPosition(ps[K := white][k := black], side) == EvalPosition(ps, side)
  {
    var ps' := ps[K := white][k := black];
    assert forall x :: 0 <= x < 12 && x != K && x != k ==> ps'[x] == ps[x];
  }

  /** The boards with the colours exchanged: each white piece's board trades places with its black counterpart's. */
  function SwapColours(ps: seq<Bitboard>): (r: seq<Bitboard>)
    requires |ps| == 12
    ensures |r| == 12
  {
    seq(12, x requires 0 <= x < 12 => if x % 2 == 0 then ps[x + 1] else ps[x - 1])
  }

  /** The symmetry negamax needs: exchanging the colours of all pieces and of the side to move keeps the score. */
  lemma ColourSymmetry(ps: seq<Bitboard>, side: int)
    requires |ps| == 12 && IsSide(side)
    ensures EvalPosition(SwapColours(ps), 1 - side) == EvalPosition(ps, side)
  {
    var sw := SwapColours(ps);
    assert Material(sw) == -Material(ps) by {
      assert sw[P] == ps[p] && sw[p] == ps[P] && sw[Q] == ps[q] && sw[q] == ps[Q];
      assert sw[N] == ps[n] && sw[n] == ps[N] && sw[B] == ps[b] && sw[b] == ps[B];
      assert sw[R] == ps[r] && sw[r] == ps[R];
    }
  }

  /** Taking one more piece of kind `x` off the board (a capture) changes the material balance by exactly its worth. */
  lemma CaptureChangesMaterial(ps: seq<Bitboard>, x: int, bb: Bitboard)
    requires |ps| == 12 && IsPiece(x) && PopCount(bb) + 1 == PopCount(ps[x])
    ensures Material(ps[x := bb]) == Material(ps) - Worth(x)
  {
    var ps' := ps[x := bb];
    var w, c := Worth(x), PopCount(bb);
    MaterialIsWeightedSum(ps);
    MaterialIsWeightedSum(ps');
    WeightedSumUpdate(ps, x, bb, 0);
    OneMore(w, PopCount(ps[x]), c);
    assert WeightedSum(ps', 0) == WeightedSum(ps, 0) - w;
  }

  lemma OneMore(w: int, a: int, c: int)
    requires a == c + 1
    ensures w * a == w * c + w
  {
  }

  lemma {:induction false} WeightedSumUpdate(ps: seq<Bitboard>, x: int, bb: Bitboard, from: nat)
    requires |ps| == 12 && IsPiece(x) && from <= 12
    ensures WeightedSum(ps[x := bb], from) ==
            WeightedSum(ps, from) + (if from <= x then Worth(x) * PopCount(bb) - Worth(x) * PopCount(ps[x]) else 0)
    decreases 12 - from
  {
    if from < 12 {
      WeightedSumUpdate(ps, x, bb, from + 1);
    }
  }
}
