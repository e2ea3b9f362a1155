/**
 * The KISS-style pseudo-random generator of src/prng.c: four 64-bit words
 * of state, scrambled one step per call, all arithmetic modulo 2^64.
 */
module Prng {

  type Word = bv64

  /** The rot(x, k) macro: shift left by `k`, or in the bits shifted out at the top. */
  function Rot(x: Word, k: bv6): Word {
    (x << k) | (x >> (64 - k as bv7))
  }

  /** The four words of state. */
  datatype State = State(a: Word, b: Word, c: Word, d: Word)

  /** The state prng_init sets before scrambling. */
  const SEED_STATE: State := State(0xf1ea5eed, 0xd4e12c77, 0xd4e12c77, 0xd4e12c77)

  /**
   * One call of rand64, statement by statement: the new state; the value
   * returned is its last word.  The rotations are written with the
   * language's rotation, which RotIsRotateLeft shows equal to the macro.
   */
  function Step(s: State): State {
    var e := s.a - s.b.RotateLeft(7);
    var a := s.b ^ s.c.RotateLeft(13);
    var b := s.c + s.d.RotateLeft(37);
    var c := s.d + e;
    var d := e + a;
    State(a, b, c, d)
  }

  /** `f` applied `count` times, the last application outermost. */
  function Iterate(f: State -> State, s: State, count: nat): State {
    if count == 0 then s else f(Iterate(f, s, count - 1))
  }

  /** The state after `count` calls of rand64. */
  function Steps(s: State, count: nat): State {
    Iterate(Step, s, count)
  }

  /** The last words of the states `f` reaches in `count` applications, in order. */
  function Outputs(f: State -> State, s: State, count: nat): (vs: seq<Word>)
    ensures |vs| == count
    decreases count
  {
    if count == 0 then [] else [f(s).d] + Outputs(f, f(s), count - 1)
  }

  /** The values of `count` successive calls of rand64 from `s`. */
  function Stream(s: State, count: nat): (vs: seq<Word>)
    ensures |vs| == count
  {
    Outputs(Step, s, count)
  }

  /* ---------------------------------------------------------------- */
  /* The generator as the engine holds it                              */
  /* ---------------------------------------------------------------- */

  class Generator {
    var a: Word
    var b: Word
    var c: Word
    var d: Word

    function Current(): State
      reads this
    {
      State(a, b, c, d)
    }

    constructor ()
      ensures Current() == SEED_STATE
    {
      a := 0xf1ea5eed;
      b := 0xd4e12c77;
      c := 0xd4e12c77;
      d := 0xd4e12c77;
    }

    /** rand64: one step of the state; the value drawn is the new last word. */
    method Rand64() returns (v: Word)
      modifies this
      ensures Current() == Step(old(Current()))
      ensures v == d
    {
      var next := Step(Current());
      a, b, c, d := next.a, next.b, next.c, next.d;
      v := d;
    }

    /** prng_init: reset the state and scramble it `seed` times (no times when the seed is not positive). */
    method Init(seed: int)
      modifies this
      ensures Current() == Steps(SEED_STATE, if seed < 0 then 0 else seed)
    {
      a := 0xf1ea5eed;
      b := 0xd4e12c77;
      c := 0xd4e12c77;
      d := 0xd4e12c77;
      var i := 0;
      while i < seed
        invariant 0 <= i && (seed >= 0 ==> i <= seed) && (seed < 0 ==> i == 0)
        invariant Current() == Steps(SEED_STATE, i)
      {
        var _ := Rand64();
        i := i + 1;
      }
    }

    /** `count` calls of rand64, collected in order. */
    method Draw(count: nat) returns (vs: seq<Word>)
      modifies this
      ensures vs == Stream(old(Current()), count)
      ensures Current() == Steps(old(Current()), count)
    {
      vs := [];
      var i := 0;
      ghost var s0 := Current();
      while i < count
        invariant i <= count
        invariant Current() == Steps(s0, i)
        invariant vs + Stream(Current(), count - i) == Stream(s0, count)
      {
        var v := Rand64();
        vs := vs + [v];
        i := i + 1;
      }
    }
  }

  /* ---------------------------------------------------------------- */
  /* Properties                                                         */
  /* ---------------------------------------------------------------- */

  /** At the three amounts rand64 uses, the macro is a left rotation and is undone by the complementary rotation. */
  lemma RotIsRotateLeft(x: Word)
    ensures Rot(x, 7) == x.RotateLeft(7) && Rot(x, 13) == x.RotateLeft(13) && Rot(x, 37) == x.RotateLeft(37)
    ensures Rot(Rot(x, 7), 57) == x && Rot(Rot(x, 13), 51) == x && Rot(Rot(x, 37), 27) == x
  {
  }

  lemma {:induction false} IterateAdd(f: State -> State, s: State, m: nat, k: nat)
    ensures Iterate(f, Iterate(f, s, m), k) == Iterate(f, s, m + k)
  {
    if k > 0 {
      IterateAdd(f, s, m, k - 1);
    }
  }

  /** Steps compose: `m` calls followed by `k` more calls are `m + k` calls. */
  lemma StepsAdd(s: State, m: nat, k: nat)
    ensures Steps(Steps(s, m), k) == Steps(s, m + k)
  {
    IterateAdd(Step, s, m, k);
  }

  lemma {:induction false} OutputsSplit(f: State -> State, s: State, m: nat, k: nat)
    ensures Outputs(f, s, m + k) == Outputs(f, s, m) + Outputs(f, Iterate(f, s, m), k)
    decreases m
  {
    if m > 0 {
      OutputsSplit(f, f(s), m - 1, k);
      assert Iterate(f, s, 1) == f(s);
      IterateAdd(f, s, 1, m - 1);
      assert Outputs(f, s, m + k) == [f(s).d] + Outputs(f, f(s), m - 1 + k);
    }
  }

  /** The values of `m + k` calls are those of the first `m` followed by those of the next `k`. */
  lemma StreamSplit(s: State, m: nat, k: nat)
    ensures Stream(s, m + k) == Stream(s, m) + Stream(Steps(s, m), k)
  {
    OutputsSplit(Step, s, m, k);
  }

  /** Determinism: two generators initialised with the same seed produce the same values. */
  method SameSeedSameValues(g: Generator, h: Generator, seed: int, count: nat) returns (x: seq<Word>, y: seq<Word>)
    requires g != h
    modifies g, h
    ensures x == y
  {
    g.Init(seed);
    h.Init(seed);
    x := g.Draw(count);
    y := h.Draw(count);
  }
}
