/**
 * The twelve piece boards as make-move and undo-move change them, one board
 * at a time: which piece stands on a square after a move, and how undo-move's
 * updates cancel make-move's.  Each lemma takes the boards before the move
 * and after each update.
 */
module PieceBoards {
  import opened Bits
  import opened Pieces

  /** `x` is the only piece whose board holds `s`. */
  predicate OnlyOn(ps: seq<Bitboard>, s: Square, x: int)
    requires |ps| == 12
  {
    IsPiece(x) && Has(ps[x], s) && forall y :: 0 <= y < 12 && y != x ==> !Has(ps[y], s)
  }

  /** No board holds `s`. */
  predicate EmptyOn(ps: seq<Bitboard>, s: Square)
    requires |ps| == 12
  {
    forall y :: 0 <= y < 12 ==> !Has(ps[y], s)
  }

  /*
   * Sequence shapes of a make/undo pair: the boards after each update, and
   * undo-move's last write to every board it touches equal to that board's
   * value before the move.  Nothing here depends on the boards being
   * bitboards.
   */

  lemma RestoreOne<T>(s: seq<T>, i: int, p1: seq<T>, a1: T, a2: T)
    requires 0 <= i < |s| && p1 == s[i := a1] && a2 == s[i]
    ensures p1[i := a2] == s
  {
  }

  lemma RestoreTwo<T>(s: seq<T>, i: int, j: int, p1: seq<T>, p2: seq<T>, q1: seq<T>, a1: T, b1: T, a2: T, b2: T)
    requires 0 <= i < |s| && 0 <= j < |s| && i != j
    requires p1 == s[i := a1] && p2 == p1[j := b1] && q1 == p2[i := a2]
    requires a2 == s[i] && b2 == s[j]
    ensures q1[j := b2] == s
  {
  }

  lemma RestoreCastle<T>(s: seq<T>, i: int, j: int, p1: seq<T>, p2: seq<T>, p3: seq<T>, q1: seq<T>, q2: seq<T>,
                         a1: T, b1: T, b2: T, a2: T, b3: T, b4: T)
    requires 0 <= i < |s| && 0 <= j < |s| && i != j
    requires p1 == s[i := a1] && p2 == p1[j := b1] && p3 == p2[j := b2]
    requires q1 == p3[i := a2] && q2 == q1[j := b3]
    requires a2 == s[i] && b4 == s[j]
    ensures q2[j := b4] == s
  {
  }

  lemma RestorePromotion<T>(s: seq<T>, i: int, k: int, p1: seq<T>, p2: seq<T>, p3: seq<T>, q1: seq<T>, q2: seq<T>,
                            a1: T, a2: T, c1: T, c2: T, c3: T, a3: T)
    requires 0 <= i < |s| && 0 <= k < |s| && i != k
    requires p1 == s[i := a1] && p2 == p1[i := a2] && p3 == p2[k := c1]
    requires q1 == p3[k := c2] && q2 == q1[k := c3]
    requires a3 == s[i] && c3 == s[k]
    ensures q2[i := a3] == s
  {
  }

  lemma RestorePromotionCapture<T>(s: seq<T>, i: int, j: int, k: int,
                                   p1: seq<T>, p2: seq<T>, p3: seq<T>, p4: seq<T>, q1: seq<T>, q2: seq<T>, q3: seq<T>,
                                   a1: T, b1: T, a2: T, c1: T, c2: T, b2: T, c3: T, a3: T)
    requires 0 <= i < |s| && 0 <= j < |s| && 0 <= k < |s| && i != j && j != k && i != k
    requires p1 == s[i := a1] && p2 == p1[j := b1] && p3 == p2[i := a2] && p4 == p3[k := c1]
    requires q1 == p4[k := c2] && q2 == q1[j := b2] && q3 == q2[k := c3]
    requires a3 == s[i] && b2 == s[j] && c3 == s[k]
    ensures q3[i := a3] == s
  {
  }

  /*
   * Each case below comes in three parts: where the moved piece lands (the
   * square undo-move's scan reads), the board values undo-move writes last
   * (one lemma per board, each taking the board's value before the move as
   * `r`), and the whole boards put back.
   */

  /** A move to an empty square: the mover lands there alone. */
  lemma QuietLands(ps: seq<Bitboard>, x: int, f: Square, t: Square, p1: seq<Bitboard>)
    requires |ps| == 12 && IsPiece(x) && f != t && EmptyOn(ps, t)
    requires p1 == ps[x := Swap(ps[x], Sq64(f), Sq64(t))]
    ensures OnlyOn(p1, t, x)
  {
    MovedOnto(ps[x], f, t);
  }

  /** Undo-move's XOR puts the mover back. */
  lemma QuietBack(ps: seq<Bitboard>, x: int, f: Square, t: Square, p1: seq<Bitboard>)
    requires |ps| == 12 && IsPiece(x) && f != t
    requires p1 == ps[x := Swap(ps[x], Sq64(f), Sq64(t))]
    ensures p1[x := Unswap(p1[x], Sq64(f), Sq64(t))] == ps
  {
    MovedBack(ps[x], f, t);
    RestoreOne(ps, x, p1, Swap(ps[x], Sq64(f), Sq64(t)), Unswap(p1[x], Sq64(f), Sq64(t)));
  }

  /** An ordinary capture: the victim `v` leaves the destination and the mover lands there alone. */
  lemma CaptureLands(ps: seq<Bitboard>, x: int, v: int, f: Square, t: Square, p1: seq<Bitboard>, p2: seq<Bitboard>)
    requires |ps| == 12 && IsPiece(x) && x != v && f != t && OnlyOn(ps, t, v)
    requires p1 == ps[x := Swap(ps[x], Sq64(f), Sq64(t))]
    requires p2 == p1[v := Flip(p1[v], Sq64(t))]
    ensures OnlyOn(p2, t, x)
  {
    MovedOnto(ps[x], f, t);
    ToggleSquareHas(ps[v], t, t);
  }

  /** An en-passant capture: the victim `v` leaves `e`, behind the empty destination, and the mover lands there alone. */
  lemma EnPassantLands(ps: seq<Bitboard>, x: int, v: int, f: Square, t: Square, e: Square, p1: seq<Bitboard>, p2: seq<Bitboard>)
    requires |ps| == 12 && IsPiece(x) && IsPiece(v) && x != v && f != t && e != t && EmptyOn(ps, t)
    requires p1 == ps[x := Swap(ps[x], Sq64(f), Sq64(t))]
    requires p2 == p1[v := Flip(p1[v], Sq64(e))]
    ensures OnlyOn(p2, t, x)
  {
    MovedOnto(ps[x], f, t);
    ToggleSquareHas(ps[v], e, t);
  }

  /** The mover of a capture, moved back. */
  lemma CaptureMoverBack(r: Bitboard, ps: seq<Bitboard>, x: int, v: int, f: Square, t: Square, e: Square,
                         p1: seq<Bitboard>, p2: seq<Bitboard>)
    requires |ps| == 12 && IsPiece(x) && IsPiece(v) && x != v && f != t && r == ps[x]
    requires p1 == ps[x := Swap(ps[x], Sq64(f), Sq64(t))]
    requires p2 == p1[v := Flip(p1[v], Sq64(e))]
    ensures Unswap(p2[x], Sq64(f), Sq64(t)) == r
  {
    MovedBack(r, f, t);
  }

  /** The victim of a capture, set again on `e`. */
  lemma VictimBack(r: Bitboard, ps: seq<Bitboard>, x: int, v: int, f: Square, t: Square, e: Square,
                   p1: seq<Bitboard>, p2: seq<Bitboard>, q1: seq<Bitboard>)
    requires |ps| == 12 && IsPiece(x) && IsPiece(v) && x != v && r == ps[v] && Has(r, e)
    requires p1 == ps[x := Swap(ps[x], Sq64(f), Sq64(t))]
    requires p2 == p1[v := Flip(p1[v], Sq64(e))]
    requires q1 == p2[x := Unswap(p2[x], Sq64(f), Sq64(t))]
    ensures Put(q1[v], Sq64(e)) == r
  {
    ClearedBack(r, e);
  }

  /** Undo-move moves the mover back and sets the victim's square `e` again. */
  lemma CaptureBack(ps: seq<Bitboard>, x: int, v: int, f: Square, t: Square, e: Square, p1: seq<Bitboard>, p2: seq<Bitboard>,
                    q1: seq<Bitboard>)
    requires |ps| == 12 && IsPiece(x) && IsPiece(v) && x != v && f != t && Has(ps[v], e)
    requires p1 == ps[x := Swap(ps[x], Sq64(f), Sq64(t))]
    requires p2 == p1[v := Flip(p1[v], Sq64(e))]
    requires q1 == p2[x := Unswap(p2[x], Sq64(f), Sq64(t))]
    ensures q1[v := Put(q1[v], Sq64(e))] == ps
  {
    CaptureMoverBack(ps[x], ps, x, v, f, t, e, p1, p2);
    VictimBack(ps[v], ps, x, v, f, t, e, p1, p2, q1);
    RestoreTwo(ps, x, v, p1, p2, q1, Swap(ps[x], Sq64(f), Sq64(t)), Flip(p1[v], Sq64(e)), Unswap(p2[x], Sq64(f), Sq64(t)), Put(q1[v], Sq64(e)));
  }

  /** Castling: the king lands alone on its empty destination, which the rook (`w`, from `h` to `g`) does not reach. */
  lemma CastleLands(ps: seq<Bitboard>, x: int, w: int, f: Square, t: Square, h: Square, g: Square,
                    p1: seq<Bitboard>, p2: seq<Bitboard>, p3: seq<Bitboard>)
    requires |ps| == 12 && IsPiece(x) && IsPiece(w) && x != w && f != t && t != h && t != g && EmptyOn(ps, t)
    requires p1 == ps[x := Swap(ps[x], Sq64(f), Sq64(t))]
    requires p2 == p1[w := Flip(p1[w], Sq64(h))]
    requires p3 == p2[w := Put(p2[w], Sq64(g))]
    ensures OnlyOn(p3, t, x)
  {
    MovedOnto(ps[x], f, t);
    ToggleSquareHas(ps[w], h, t);
    SetSquareHas(Flip(ps[w], Sq64(h)), g, t);
  }

  /** The king of a castling, moved back. */
  lemma KingBack(r: Bitboard, ps: seq<Bitboard>, x: int, w: int, f: Square, t: Square, h: Square, g: Square,
                 p1: seq<Bitboard>, p2: seq<Bitboard>, p3: seq<Bitboard>)
    requires |ps| == 12 && IsPiece(x) && IsPiece(w) && x != w && f != t && r == ps[x]
    requires p1 == ps[x := Swap(ps[x], Sq64(f), Sq64(t))]
    requires p2 == p1[w := Flip(p1[w], Sq64(h))]
    requires p3 == p2[w := Put(p2[w], Sq64(g))]
    ensures Unswap(p3[x], Sq64(f), Sq64(t)) == r
  {
    MovedBack(r, f, t);
  }

  /** The rook of a castling, shifted back from `g` to `h`. */
  lemma RookBack(r: Bitboard, ps: seq<Bitboard>, x: int, w: int, f: Square, t: Square, h: Square, g: Square,
                 p1: seq<Bitboard>, p2: seq<Bitboard>, p3: seq<Bitboard>, q1: seq<Bitboard>)
    requires |ps| == 12 && IsPiece(x) && IsPiece(w) && x != w && r == ps[w] && Has(r, h) && !Has(r, g)
    requires p1 == ps[x := Swap(ps[x], Sq64(f), Sq64(t))]
    requires p2 == p1[w := Flip(p1[w], Sq64(h))]
    requires p3 == p2[w := Put(p2[w], Sq64(g))]
    requires q1 == p3[x := Unswap(p3[x], Sq64(f), Sq64(t))]
    ensures Put(Flip(q1[w], Sq64(g)), Sq64(h)) == r
  {
    ShiftedBack(r, h, g);
  }

  /** Undo-move moves the king back and the rook from `g` back to `h`. */
  lemma CastleBack(ps: seq<Bitboard>, x: int, w: int, f: Square, t: Square, h: Square, g: Square,
                   p1: seq<Bitboard>, p2: seq<Bitboard>, p3: seq<Bitboard>, q1: seq<Bitboard>, q2: seq<Bitboard>)
    requires |ps| == 12 && IsPiece(x) && IsPiece(w) && x != w && f != t && Has(ps[w], h) && !Has(ps[w], g)
    requires p1 == ps[x := Swap(ps[x], Sq64(f), Sq64(t))]
    requires p2 == p1[w := Flip(p1[w], Sq64(h))]
    requires p3 == p2[w := Put(p2[w], Sq64(g))]
    requires q1 == p3[x := Unswap(p3[x], Sq64(f), Sq64(t))]
    requires q2 == q1[w := Flip(q1[w], Sq64(g))]
    ensures q2[w := Put(q2[w], Sq64(h))] == ps
  {
    KingBack(ps[x], ps, x, w, f, t, h, g, p1, p2, p3);
    RookBack(ps[w], ps, x, w, f, t, h, g, p1, p2, p3, q1);
    RestoreCastle(ps, x, w, p1, p2, p3, q1, q2, Swap(ps[x], Sq64(f), Sq64(t)), Flip(p1[w], Sq64(h)), Put(p2[w], Sq64(g)),
                  Unswap(p3[x], Sq64(f), Sq64(t)), Flip(q1[w], Sq64(g)), Put(Flip(q1[w], Sq64(g)), Sq64(h)));
  }

  /** A promotion onto an empty square: the pawn `x` leaves it and the new piece `k` stands there alone. */
  lemma PromotionLands(ps: seq<Bitboard>, x: int, k: int, f: Square, t: Square,
                       p1: seq<Bitboard>, p2: seq<Bitboard>, p3: seq<Bitboard>)
    requires |ps| == 12 && IsPiece(x) && IsPiece(k) && x != k && f != t && EmptyOn(ps, t)
    requires p1 == ps[x := Swap(ps[x], Sq64(f), Sq64(t))]
    requires p2 == p1[x := Flip(p1[x], Sq64(t))]
    requires p3 == p2[k := Put(p2[k], Sq64(t))]
    ensures OnlyOn(p3, t, k)
  {
    MovedOnto(ps[x], f, t);
    ToggleSquareHas(Swap(ps[x], Sq64(f), Sq64(t)), t, t);
    SetSquareHas(ps[k], t, t);
  }

  /** The promoted piece, moved back to `f` and removed there. */
  lemma PromotedBack(r: Bitboard, ps: seq<Bitboard>, x: int, k: int, f: Square, t: Square,
                     p1: seq<Bitboard>, p2: seq<Bitboard>, p3: seq<Bitboard>, q1: seq<Bitboard>)
    requires |ps| == 12 && IsPiece(x) && IsPiece(k) && x != k && f != t && r == ps[k] && !Has(r, f) && !Has(r, t)
    requires p1 == ps[x := Swap(ps[x], Sq64(f), Sq64(t))]
    requires p2 == p1[x := Flip(p1[x], Sq64(t))]
    requires p3 == p2[k := Put(p2[k], Sq64(t))]
    requires q1 == p3[k := Unswap(p3[k], Sq64(f), Sq64(t))]
    ensures Flip(q1[k], Sq64(f)) == r
  {
    PromotedPieceBack(r, f, t);
  }

  /** The promoting pawn, put back on `f`. */
  lemma PawnBack(r: Bitboard, ps: seq<Bitboard>, x: int, f: Square, t: Square, p1: seq<Bitboard>, p2: seq<Bitboard>)
    requires |ps| == 12 && IsPiece(x) && r == ps[x] && Has(r, f) && !Has(r, t)
    requires p1 == ps[x := Swap(ps[x], Sq64(f), Sq64(t))]
    requires p2 == p1[x := Flip(p1[x], Sq64(t))]
    ensures Put(p2[x], Sq64(f)) == r
  {
    PromotedPawnBack(r, f, t);
  }

  /** Undo-move moves the new piece back, removes it and puts the pawn back on `f`. */
  lemma PromotionBack(ps: seq<Bitboard>, x: int, k: int, f: Square, t: Square,
                      p1: seq<Bitboard>, p2: seq<Bitboard>, p3: seq<Bitboard>, q1: seq<Bitboard>, q2: seq<Bitboard>)
    requires |ps| == 12 && IsPiece(x) && IsPiece(k) && x != k && f != t
    requires Has(ps[x], f) && !Has(ps[x], t) && !Has(ps[k], f) && !Has(ps[k], t)
    requires p1 == ps[x := Swap(ps[x], Sq64(f), Sq64(t))]
    requires p2 == p1[x := Flip(p1[x], Sq64(t))]
    requires p3 == p2[k := Put(p2[k], Sq64(t))]
    requires q1 == p3[k := Unswap(p3[k], Sq64(f), Sq64(t))]
    requires q2 == q1[k := Flip(q1[k], Sq64(f))]
    ensures q2[x := Put(q2[x], Sq64(f))] == ps
  {
    PromotedBack(ps[k], ps, x, k, f, t, p1, p2, p3, q1);
    PawnBack(ps[x], ps, x, f, t, p1, p2);
    RestorePromotion(ps, x, k, p1, p2, p3, q1, q2, Swap(ps[x], Sq64(f), Sq64(t)), Flip(p1[x], Sq64(t)), Put(p2[k], Sq64(t)),
                     Unswap(p3[k], Sq64(f), Sq64(t)), Flip(q1[k], Sq64(f)), Put(q2[x], Sq64(f)));
  }

  /** A promotion that captures `y`: the pawn `x` and `y` leave the destination and the new piece `k` stands there alone. */
  lemma PromotionCaptureLands(ps: seq<Bitboard>, x: int, y: int, k: int, f: Square, t: Square,
                              p1: seq<Bitboard>, p2: seq<Bitboard>, p3: seq<Bitboard>, p4: seq<Bitboard>)
    requires |ps| == 12 && IsPiece(x) && IsPiece(k) && x != y && y != k && x != k && f != t && OnlyOn(ps, t, y)
    requires p1 == ps[x := Swap(ps[x], Sq64(f), Sq64(t))]
    requires p2 == p1[y := Flip(p1[y], Sq64(t))]
    requires p3 == p2[x := Flip(p2[x], Sq64(t))]
    requires p4 == p3[k := Put(p3[k], Sq64(t))]
    ensures OnlyOn(p4, t, k)
  {
    MovedOnto(ps[x], f, t);
    ToggleSquareHas(Swap(ps[x], Sq64(f), Sq64(t)), t, t);
    ToggleSquareHas(ps[y], t, t);
    SetSquareHas(ps[k], t, t);
  }

  /** The promoted piece of a capturing promotion, moved back to `f` and removed there. */
  lemma PromotedCaptureBack(r: Bitboard, ps: seq<Bitboard>, x: int, y: int, k: int, f: Square, t: Square,
                            p1: seq<Bitboard>, p2: seq<Bitboard>, p3: seq<Bitboard>, p4: seq<Bitboard>,
                            q1: seq<Bitboard>, q2: seq<Bitboard>)
    requires |ps| == 12 && IsPiece(x) && IsPiece(y) && IsPiece(k) && x != y && y != k && x != k && f != t
    requires r == ps[k] && !Has(r, f) && !Has(r, t)
    requires p1 == ps[x := Swap(ps[x], Sq64(f), Sq64(t))]
    requires p2 == p1[y := Flip(p1[y], Sq64(t))]
    requires p3 == p2[x := Flip(p2[x], Sq64(t))]
    requires p4 == p3[k := Put(p3[k], Sq64(t))]
    requires q1 == p4[k := Unswap(p4[k], Sq64(f), Sq64(t))]
    requires q2 == q1[y := Put(q1[y], Sq64(t))]
    ensures Flip(q2[k], Sq64(f)) == r
  {
    PromotedPieceBack(r, f, t);
  }

  /** The captured piece of a capturing promotion, set again on `t`. */
  lemma CapturedBack(r: Bitboard, ps: seq<Bitboard>, x: int, y: int, k: int, f: Square, t: Square,
                     p1: seq<Bitboard>, p2: seq<Bitboard>, p3: seq<Bitboard>, p4: seq<Bitboard>, q1: seq<Bitboard>)
    requires |ps| == 12 && IsPiece(x) && IsPiece(y) && IsPiece(k) && x != y && y != k && x != k
    requires r == ps[y] && Has(r, t)
    requires p1 == ps[x := Swap(ps[x], Sq64(f), Sq64(t))]
    requires p2 == p1[y := Flip(p1[y], Sq64(t))]
    requires p3 == p2[x := Flip(p2[x], Sq64(t))]
    requires p4 == p3[k := Put(p3[k], Sq64(t))]
    requires q1 == p4[k := Unswap(p4[k], Sq64(f), Sq64(t))]
    ensures Put(q1[y], Sq64(t)) == r
  {
    ClearedBack(r, t);
  }

  /** The pawn of a capturing promotion, put back on `f`. */
  lemma PawnCaptureBack(r: Bitboard, ps: seq<Bitboard>, x: int, y: int, k: int, f: Square, t: Square,
                        p1: seq<Bitboard>, p2: seq<Bitboard>, p3: seq<Bitboard>, p4: seq<Bitboard>,
                        q1: seq<Bitboard>, q2: seq<Bitboard>, q3: seq<Bitboard>)
    requires |ps| == 12 && IsPiece(x) && IsPiece(y) && IsPiece(k) && x != y && y != k && x != k
    requires r == ps[x] && Has(r, f) && !Has(r, t)
    requires p1 == ps[x := Swap(ps[x], Sq64(f), Sq64(t))]
    requires p2 == p1[y := Flip(p1[y], Sq64(t))]
    requires p3 == p2[x := Flip(p2[x], Sq64(t))]
    requires p4 == p3[k := Put(p3[k], Sq64(t))]
    requires q1 == p4[k := Unswap(p4[k], Sq64(f), Sq64(t))]
    requires q2 == q1[y := Put(q1[y], Sq64(t))]
    requires q3 == q2[k := Flip(q2[k], Sq64(f))]
    ensures Put(q3[x], Sq64(f)) == r
  {
    PromotedPawnBack(r, f, t);
  }

  /** Undo-move moves the new piece back, restores `y`, removes the new piece and puts the pawn back. */
  lemma PromotionCaptureBack(ps: seq<Bitboard>, x: int, y: int, k: int, f: Square, t: Square,
                             p1: seq<Bitboard>, p2: seq<Bitboard>, p3: seq<Bitboard>, p4: seq<Bitboard>,
                             q1: seq<Bitboard>, q2: seq<Bitboard>, q3: seq<Bitboard>)
    requires |ps| == 12 && IsPiece(x) && IsPiece(y) && IsPiece(k) && x != y && y != k && x != k && f != t
    requires Has(ps[x], f) && !Has(ps[x], t) && Has(ps[y], t) && !Has(ps[k], f) && !Has(ps[k], t)
    requires p1 == ps[x := Swap(ps[x], Sq64(f), Sq64(t))]
    requires p2 == p1[y := Flip(p1[y], Sq64(t))]
    requires p3 == p2[x := Flip(p2[x], Sq64(t))]
    requires p4 == p3[k := Put(p3[k], Sq64(t))]
    requires q1 == p4[k := Unswap(p4[k], Sq64(f), Sq64(t))]
    requires q2 == q1[y := Put(q1[y], Sq64(t))]
    requires q3 == q2[k := Flip(q2[k], Sq64(f))]
    ensures q3[x := Put(q3[x], Sq64(f))] == ps
  {
    PromotedCaptureBack(ps[k], ps, x, y, k, f, t, p1, p2, p3, p4, q1, q2);
    CapturedBack(ps[y], ps, x, y, k, f, t, p1, p2, p3, p4, q1);
    PawnCaptureBack(ps[x], ps, x, y, k, f, t, p1, p2, p3, p4, q1, q2, q3);
    RestorePromotionCapture(ps, x, y, k, p1, p2, p3, p4, q1, q2, q3,
                            Swap(ps[x], Sq64(f), Sq64(t)), Flip(p1[y], Sq64(t)), Flip(p2[x], Sq64(t)), Put(p3[k], Sq64(t)),
                            Unswap(p4[k], Sq64(f), Sq64(t)), Put(q1[y], Sq64(t)), Flip(q2[k], Sq64(f)), Put(q3[x], Sq64(f)));
  }
}
