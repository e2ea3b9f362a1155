/**
 * The bit-iteration loops of src/position.c:
 * `while (x) { sq = LS1B(x); ...; x = RESET_LS1B(x); }`.
 * Each such loop visits the squares of `x` from the lowest upwards and
 * threads some state through the visits; Fold is that loop as a function,
 * and Spread is the special case that ORs one board per square into an
 * accumulator (the `|=` loops of genAttacks and genPinned).
 */
module Scan {
  import opened Bits

  /** The loop over the squares of `xs`, lowest first, applying `step` to the state at each. */
  function Fold<S>(acc: S, xs: Bitboard, step: (S, Square) -> S): S
    decreases PopCount(xs)
  {
    if xs == 0 then acc
    else
      Fold(step(acc, BitScanForward(xs)), ResetLs1b(xs), step)
  }

  /** `acc |= f(sq)` for every square `sq` of `xs`. */
  function Spread(acc: Bitboard, xs: Bitboard, f: Square -> Bitboard): Bitboard
    decreases PopCount(xs)
  {
    if xs == 0 then acc
    else
      Spread(Join(acc, f(BitScanForward(xs))), ResetLs1b(xs), f)
  }

  /** The square a loop body sees: LS1B of the remaining board is the board of its lowest square, and RESET_LS1B drops exactly that square. */
  lemma Lowest(xs: Bitboard)
    requires xs != 0
    ensures Ls1b(xs) != 0 && Ls1b(xs) == Sq64(BitScanForward(xs))
    ensures BitScanForward(Ls1b(xs)) == BitScanForward(xs)
    ensures forall s: Square :: Has(ResetLs1b(xs), s) <==> Has(xs, s) && s != BitScanForward(xs)
  {
    BitScanForwardIsLs1b(xs);
    BitScanForwardSq64(BitScanForward(xs));
    forall s: Square ensures Has(ResetLs1b(xs), s) <==> Has(xs, s) && s != BitScanForward(xs) {
      XorHas(xs, Sq64(BitScanForward(xs)), s);
      Sq64Has(BitScanForward(xs), s);
    }
  }

  /** `a | b`, named so that unfolding Spread leaves no raw bit operation behind. */
  function Join(a: Bitboard, b: Bitboard): Bitboard {
    a | b
  }

  lemma JoinHas(a: Bitboard, b: Bitboard, t: Square)
    ensures Has(Join(a, b), t) <==> Has(a, t) || Has(b, t)
  {
    OrHas(a, b, t);
  }

  /** Some square of `xs` has `t` on its board. */
  ghost predicate Hits(xs: Bitboard, f: Square -> Bitboard, t: Square) {
    exists s: Square :: Has(xs, s) && Has(f(s), t)
  }

  lemma HitsEmpty(f: Square -> Bitboard, t: Square)
    ensures !Hits(EMPTY, f, t)
  {
    forall s: Square ensures !Has(EMPTY, s) {
      EmptyHas(s);
    }
  }

  /** The squares of `xs` are its lowest square and the squares left after RESET_LS1B. */
  lemma HitsStep(xs: Bitboard, f: Square -> Bitboard, t: Square)
    requires xs != 0
    ensures Hits(xs, f, t) <==> Has(f(BitScanForward(xs)), t) || Hits(ResetLs1b(xs), f, t)
  {
    Lowest(xs);
    BitScanForwardIsLs1b(xs);
    var low := BitScanForward(xs);
    if Has(f(low), t) {
      assert Has(xs, low) && Has(f(low), t);
    }
  }

  /** Boards that reach `t` from the same squares are hit alike. */
  lemma HitsSame(xs: Bitboard, f: Square -> Bitboard, g: Square -> Bitboard, t: Square)
    requires forall s: Square :: Has(f(s), t) <==> Has(g(s), t)
    ensures Hits(xs, f, t) <==> Hits(xs, g, t)
  {
  }

  /** A square's board that is the union of two boards is hit when either is. */
  lemma HitsJoin(xs: Bitboard, f: Square -> Bitboard, g: Square -> Bitboard, h: Square -> Bitboard, t: Square)
    requires forall s: Square :: Has(h(s), t) <==> Has(f(s), t) || Has(g(s), t)
    ensures Hits(xs, h, t) <==> Hits(xs, f, t) || Hits(xs, g, t)
  {
  }

  /** The squares of a one-square board hit `t` exactly when that square does. */
  lemma HitsOnly(xs: Bitboard, s: Square, f: Square -> Bitboard, t: Square)
    requires xs == Sq64(s)
    ensures Hits(xs, f, t) <==> Has(f(s), t)
  {
    Sq64Has(s, s);
    if Hits(xs, f, t) {
      var u :| Has(xs, u) && Has(f(u), t);
      Sq64Has(s, u);
    }
  }

  /** When only the squares `a` (if `ca`) and `b` (if `cb`) reach `t`, a hit is one of them on the board. */
  lemma HitsFrom(xs: Bitboard, f: Square -> Bitboard, t: Square, a: Square, ca: bool, b: Square, cb: bool)
    requires forall s: Square :: Has(f(s), t) <==> (ca && s == a) || (cb && s == b)
    ensures Hits(xs, f, t) <==> (ca && Has(xs, a)) || (cb && Has(xs, b))
  {
    if ca && Has(xs, a) {
      assert Has(xs, a) && Has(f(a), t);
    }
    if cb && Has(xs, b) {
      assert Has(xs, b) && Has(f(b), t);
    }
  }

  /** Spread ORs into the accumulator exactly the boards of the squares of `xs`. */
  lemma {:induction false} SpreadHas(acc: Bitboard, xs: Bitboard, f: Square -> Bitboard, t: Square)
    ensures Has(Spread(acc, xs, f), t) <==> Has(acc, t) || Hits(xs, f, t)
    decreases PopCount(xs)
  {
    if xs == 0 {
      HitsEmpty(f, t);
    } else {
      var low := BitScanForward(xs);
      SpreadHas(Join(acc, f(low)), ResetLs1b(xs), f, t);
      HitsStep(xs, f, t);
      SpreadUnfold(acc, xs, f);
      JoinStep(acc, f(low), Spread(Join(acc, f(low)), ResetLs1b(xs), f), Spread(acc, xs, f), t,
               Hits(xs, f, t), Hits(ResetLs1b(xs), f, t));
    }
  }

  /** One step of SpreadHas over plain boards: `next` is the rest of the loop started from `acc | g`. */
  lemma JoinStep(acc: Bitboard, g: Bitboard, next: Bitboard, result: Bitboard, t: Square, hitAll: bool, hitRest: bool)
    requires result == next
    requires Has(next, t) <==> Has(Join(acc, g), t) || hitRest
    requires hitAll <==> Has(g, t) || hitRest
    ensures Has(result, t) <==> Has(acc, t) || hitAll
  {
    JoinHas(acc, g, t);
  }

  lemma SpreadUnfold(acc: Bitboard, xs: Bitboard, f: Square -> Bitboard)
    requires xs != 0
    ensures Spread(acc, xs, f) == Spread(Join(acc, f(BitScanForward(xs))), ResetLs1b(xs), f)
  {
  }

  /** A property of the state that every step keeps holds after the whole loop. */
  lemma {:induction false} FoldKeeps<S>(acc: S, xs: Bitboard, step: (S, Square) -> S, inv: S -> bool)
    requires inv(acc)
    requires forall a: S, s: Square :: inv(a) && Has(xs, s) ==> inv(step(a, s))
    ensures inv(Fold(acc, xs, step))
    decreases PopCount(xs)
  {
    if xs != 0 {
      Lowest(xs);
      BitScanForwardIsLs1b(xs);
      FoldKeeps(step(acc, BitScanForward(xs)), ResetLs1b(xs), step, inv);
    }
  }

  /**
   * A property that every step keeps, and that the step at a square of
   * `xs` establishes whatever the state, holds after the whole loop.
   */
  lemma {:induction false} FoldReaches<S>(acc: S, xs: Bitboard, step: (S, Square) -> S, inv: S -> bool, s: Square)
    requires Has(xs, s)
    requires forall a: S, t: Square :: inv(a) ==> inv(step(a, t))
    requires forall a: S :: inv(step(a, s))
    ensures inv(Fold(acc, xs, step))
    decreases PopCount(xs)
  {
    EmptyHas(s);
    Lowest(xs);
    BitScanForwardIsLs1b(xs);
    if BitScanForward(xs) == s {
      FoldKeeps(step(acc, s), ResetLs1b(xs), step, inv);
    } else {
      FoldReaches(step(acc, BitScanForward(xs)), ResetLs1b(xs), step, inv, s);
    }
  }
}
