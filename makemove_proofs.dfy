module MakeMoveProofs {
  import opened Bits
  import opened Wrappers
  import opened Pieces
  import opened Moves
  import opened MakeMove
  import opened PieceBoards

  /** The position of piece `x` in the scan order. */
  function ScanIndex(x: int): int {
    if x % 2 == 0 then x / 2 else 6 + x / 2
  }

  lemma ScanIndexOf(x: int)
    requires IsPiece(x)
    ensures 0 <= ScanIndex(x) < 12 && SCAN[ScanIndex(x)] == x
  {
  }

  lemma ScanAt(j: int, x: int)
    requires 0 <= j < 12 && IsPiece(x)
    ensures IsPiece(SCAN[j]) && (SCAN[j] == x <==> j == ScanIndex(x))
  {
  }

  lemma {:induction false} LastOnOnly(ps: seq<Bitboard>, s: Square, x: int, i: nat)
    requires |ps| == 12 && i <= 12 && OnlyOn(ps, s, x)
    ensures LastOn(ps, s, i) == (if ScanIndex(x) < i then x else NONE_PIECE)
  {
    if i > 0 {
      ScanAt(i - 1, x);
      LastOnOnly(ps, s, x, i - 1);
    }
  }

  lemma {:induction false} FirstOnOnly(ps: seq<Bitboard>, s: Square, x: int, i: nat)
    requires |ps| == 12 && i <= 12 && OnlyOn(ps, s, x)
    ensures FirstOn(ps, s, i) == (if i <= ScanIndex(x) then x else NONE_PIECE)
    decreases 12 - i
  {
    if i < 12 {
      ScanAt(i, x);
      FirstOnOnly(ps, s, x, i + 1);
    } else {
      ScanIndexOf(x);
    }
  }

  /** The piece the scan finds on a square it is the only one on. */
  lemma OnlyOnFound(ps: seq<Bitboard>, s: Square, x: int)
    requires |ps| == 12 && OnlyOn(ps, s, x)
    ensures PieceOn(ps, s) == x && FirstOn(ps, s, 0) == x
  {
    ScanIndexOf(x);
    LastOnOnly(ps, s, x, 12);
    FirstOnOnly(ps, s, x, 0);
  }

  lemma {:induction false} LastOnFound(ps: seq<Bitboard>, s: Square, i: nat)
    requires |ps| == 12 && i <= 12
    ensures LastOn(ps, s, i) != NONE_PIECE ==> Has(ps[LastOn(ps, s, i)], s)
    ensures LastOn(ps, s, i) == NONE_PIECE ==> forall j :: 0 <= j < i ==> !Has(ps[SCAN[j]], s)
  {
    if i > 0 {
      LastOnFound(ps, s, i - 1);
    }
  }

  /** On disjoint boards, a piece the scan finds on a square is the only one there. */
  lemma PieceOnOnly(ps: seq<Bitboard>, s: Square)
    requires |ps| == 12 && PiecesDisjoint(ps) && PieceOn(ps, s) != NONE_PIECE
    ensures OnlyOn(ps, s, PieceOn(ps, s))
  {
    LastOnFound(ps, s, 12);
    var x := PieceOn(ps, s);
    forall y | 0 <= y < 12 && y != x
      ensures !Has(ps[y], s)
    {
      if x < y {
        DisjointHas(ps[x], ps[y], s);
      } else {
        DisjointHas(ps[x], ps[y], s);
        assert Disjoint(ps[y], ps[x]);
        assert ps[x] & ps[y] == ps[y] & ps[x];
      }
    }
  }

  /** When the scan finds nothing on a square, no board holds it. */
  lemma PieceOnEmpty(ps: seq<Bitboard>, s: Square)
    requires |ps| == 12 && PieceOn(ps, s) == NONE_PIECE
    ensures EmptyOn(ps, s)
  {
    LastOnFound(ps, s, 12);
    forall y | 0 <= y < 12
      ensures !Has(ps[y], s)
    {
      ScanIndexOf(y);
    }
  }

  /*
   * The hash.  Every stage of make-move and undo-move toggles keys into the
   * hash.  Only ToggleAssoc and the three one-line identities after it need
   * the bit-level meaning of XOR; the rest is algebra on Toggle, so that no
   * proof below has to reason about the bits of a long XOR chain.
   */

  lemma ToggleAssoc(h: bv64, a: bv64, b: bv64)
    ensures Toggle(Toggle(h, a), b) == Toggle(h, Toggle(a, b))
  {
    assert (h ^ a) ^ b == h ^ (a ^ b);
  }

  lemma ToggleComm(a: bv64, b: bv64)
    ensures Toggle(a, b) == Toggle(b, a)
  {
  }

  lemma ToggleSelf(a: bv64)
    ensures Toggle(a, a) == 0
  {
  }

  lemma ToggleZero(a: bv64)
    ensures Toggle(a, 0) == a
  {
  }

  /** Toggling a key twice leaves the hash unchanged. */
  lemma ToggleTwice(h: bv64, k: bv64)
    ensures Toggle(Toggle(h, k), k) == h
  {
    ToggleAssoc(h, k, k);
    ToggleSelf(k);
    ToggleZero(h);
  }

  /** The order of two toggles does not matter. */
  lemma ToggleSwap(h: bv64, a: bv64, b: bv64)
    ensures Toggle(Toggle(h, a), b) == Toggle(Toggle(h, b), a)
  {
    ToggleAssoc(h, a, b);
    ToggleAssoc(h, b, a);
    ToggleComm(a, b);
  }

  /** A key toggled again after another cancels. */
  lemma Slide1(h: bv64, k: bv64, b: bv64)
    ensures Toggle(Toggle(Toggle(h, k), b), k) == Toggle(h, b)
  {
    ToggleSwap(h, k, b);
    ToggleTwice(Toggle(h, b), k);
  }

  /** A key toggled again after two others cancels. */
  lemma Slide2(h: bv64, k: bv64, b: bv64, c: bv64)
    ensures Toggle(Toggle(Toggle(Toggle(h, k), b), c), k) == Toggle(Toggle(h, b), c)
  {
    ToggleSwap(Toggle(Toggle(h, k), b), c, k);
    Slide1(h, k, b);
  }

  /** Three toggles in a row are one toggle with their combined key. */
  lemma Gather3(h: bv64, a: bv64, b: bv64, c: bv64)
    ensures Toggle(Toggle(Toggle(h, a), b), c) == Toggle(h, Toggle(Toggle(a, b), c))
  {
    ToggleAssoc(h, a, b);
    ToggleAssoc(h, Toggle(a, b), c);
  }

  /** Six toggles in a row are one toggle with their combined key. */
  lemma Gather6(h: bv64, a: bv64, b: bv64, c: bv64, d: bv64, e: bv64, f: bv64)
    ensures Toggle(Toggle(Toggle(Toggle(Toggle(Toggle(h, a), b), c), d), e), f)
         == Toggle(h, Toggle(Toggle(Toggle(Toggle(Toggle(a, b), c), d), e), f))
  {
    var k2 := Toggle(a, b);
    var k3 := Toggle(k2, c);
    var k4 := Toggle(k3, d);
    var k5 := Toggle(k4, e);
    ToggleAssoc(h, a, b);
    ToggleAssoc(h, k2, c);
    ToggleAssoc(h, k3, d);
    ToggleAssoc(h, k4, e);
    ToggleAssoc(h, k5, f);
  }

  /** The same six keys toggled twice in the same order cancel. */
  lemma Repeat6(h: bv64, a: bv64, b: bv64, c: bv64, d: bv64, e: bv64, f: bv64)
    ensures Toggle(Toggle(Toggle(Toggle(Toggle(Toggle(
              Toggle(Toggle(Toggle(Toggle(Toggle(Toggle(h, a), b), c), d), e), f), a), b), c), d), e), f) == h
  {
    var y := Toggle(Toggle(Toggle(Toggle(Toggle(Toggle(h, a), b), c), d), e), f);
    var k := Toggle(Toggle(Toggle(Toggle(Toggle(a, b), c), d), e), f);
    Gather6(h, a, b, c, d, e, f);
    Gather6(y, a, b, c, d, e, f);
    ToggleTwice(h, k);
  }

  /**
   * The hash journal of a make/undo pair, for any keys.  Make-move toggles
   * the mover's keys `kf` and `kt`, the old en-passant key `e0`, the
   * captured piece's key `ck`, the old and new castling keys `co` and `cn`,
   * the promotion or rook keys `sk`, the new en-passant key `en` and the
   * side key `zs`.  Undo-move toggles the side key, its own mover keys `kf'`
   * and `kt'`, the two en-passant keys, the captured key, its own special
   * keys `sk'` and the two castling keys.  When the mover and special keys
   * of the two combine alike, the hash comes back.
   */
  lemma Journal(h: bv64, kf: bv64, kt: bv64, e0: bv64, ck: bv64, co: bv64, cn: bv64, sk: bv64, en: bv64, zs: bv64,
                kf': bv64, kt': bv64, sk': bv64)
    requires Toggle(Toggle(sk, kf'), kt') == Toggle(Toggle(kf, kt), sk')
    ensures Toggle(Toggle(Toggle(Toggle(Toggle(Toggle(Toggle(Toggle(Toggle(
              Toggle(Toggle(Toggle(Toggle(Toggle(Toggle(Toggle(Toggle(Toggle(h, kf), kt), e0), ck), co), cn), sk), en), zs),
              zs), kf'), kt'), en), e0), ck), sk'), cn), co) == h
  {
    var h4 := Toggle(Toggle(Toggle(Toggle(Toggle(Toggle(h, kf), kt), e0), ck), co), cn);
    // the side keys cancel
    ToggleTwice(Toggle(Toggle(h4, sk), en), zs);
    // the new en-passant keys cancel
    Slide2(Toggle(h4, sk), en, kf', kt');
    // undo-move's mover keys and make-move's special keys trade for make-move's mover keys and undo-move's special keys
    Gather3(h4, sk, kf', kt');
    Gather3(h4, kf, kt, sk');
    // the special keys cancel
    Slide2(Toggle(Toggle(h4, kf), kt), sk', e0, ck);
    // the castling keys come in the order make-move toggled them
    ToggleSwap(Toggle(Toggle(Toggle(Toggle(h4, kf), kt), e0), ck), cn, co);
    Repeat6(h, kf, kt, e0, ck, co, cn);
  }

  lemma RanksApart(t: Square)
    ensures !(Has(RANK6, t) && Has(RANK3, t))
  {
    AndHas(RANK6, RANK3, t);
    assert RANK6 & RANK3 == 0;
    EmptyHas(t);
  }

  /** Make-move and undo-move toggle the same key for the captured piece: a destination is never on both ranks. */
  lemma CaptureKeysAgree(f: MoveFlags, to: Square, y: int, z: Zobrist)
    requires z.Valid()
    requires f.capture && !f.enpassant ==> IsPiece(y)
    ensures MakeCaptureKey(f, to, y, z) == CaptureKey(f, to, y, z)
  {
    if f.capture && f.enpassant {
      RanksApart(to);
      if Has(RANK6, to) {
        ToggleZero(z.Key(p, to - 8));
      } else {
        ToggleComm(0, if Has(RANK3, to) then z.Key(P, to + 8) else 0);
        ToggleZero(if Has(RANK3, to) then z.Key(P, to + 8) else 0);
      }
    }
  }

  lemma PairKeyComm(x: int, s: Square, t: Square, z: Zobrist)
    requires z.Valid() && IsPiece(x)
    ensures PairKey(x, s, t, z) == PairKey(x, t, s, z)
  {
    ToggleComm(z.Key(x, s), z.Key(x, t));
  }

  /** Shifting the rook back toggles the keys its shift toggled. */
  lemma RookKeysAgree(to: Square, z: Zobrist)
    requires z.Valid()
    ensures RookKey(to, z) == RookBackKey(to, z)
  {
    if to == G1 { PairKeyComm(R, F1, H1, z); }
    else if to == C1 { PairKeyComm(R, D1, A1, z); }
    else if to == G8 { PairKeyComm(r, F8, H8, z); }
    else if to == C8 { PairKeyComm(r, D8, A8, z); }
  }

  /** Outside promotions the special keys of make and undo agree. */
  lemma SpecialKeysAgree(f: MoveFlags, from: Square, to: Square, side: int, z: Zobrist)
    requires z.Valid() && IsSide(side) && !f.promotion
    ensures MakeSpecialKey(f, to, side, z) == UndoSpecialKey(f, from, to, side, z)
  {
    RookKeysAgree(to, z);
  }

  /**
   * A promotion: make-move toggles the pawn's keys `pf` and `pt` at both
   * squares, and then the pawn's and the new piece's keys `pt` and `qt` at the destination.
   * Undo-move toggles the new piece's keys `qf` and `qt` at both squares, and
   * then the new piece's and the pawn's keys at the origin.  Both combine alike.
   */
  lemma Balance(pf: bv64, pt: bv64, qf: bv64, qt: bv64)
    ensures Toggle(Toggle(Toggle(pt, qt), qf), qt) == Toggle(Toggle(pf, pt), Toggle(qf, pf))
  {
    Slide1(pt, qt, qf);
    ToggleAssoc(Toggle(pf, pt), qf, pf);
    ToggleComm(pf, pt);
    Slide1(pt, pf, qf);
  }

  /** Make-move's special keys, toggled before undo-move's mover keys, combine as the mover keys before undo-move's special keys (outside promotions). */
  lemma Rotate(a: bv64, b: bv64, c: bv64)
    ensures Toggle(Toggle(c, a), b) == Toggle(Toggle(a, b), c)
  {
    ToggleComm(c, a);
    ToggleSwap(a, c, b);
  }
}
