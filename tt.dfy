/**
 * The transposition table of src/tt.c: one array of 16-byte entries
 * indexed by `hash & tt_size`, where `tt_size` is the number of entries
 * less one and zero means that there is no table.
 */
module TT {
  import opened TableSize

  /** An unsigned 16-bit field. */
  type U16 = x: int | 0 <= x < 0x1_0000

  /** The bound flags of tt.h. */
  const EXACT: U16 := 0
  const ALPHA: U16 := 1
  const BETA: U16 := 2

  /** One slot: the full key of the position stored, its score, the depth searched and the kind of bound. */
  datatype Entry = Entry(hash: bv64, val: int, depth: U16, flag: U16)

  /* ---------------------------------------------------------------- */
  /* The index                                                         */
  /* ---------------------------------------------------------------- */

  /** The bitwise and of two non-negative numbers, bit by bit from the lowest. */
  function BitAnd(x: nat, y: nat): (r: nat)
    ensures r <= x && r <= y
    decreases x
  {
    if x == 0 || y == 0 then 0
    else 2 * BitAnd(x / 2, y / 2) + (if x % 2 == 1 && y % 2 == 1 then 1 else 0)
  }

  /** `hash & tt_size`: the slot a key lives in, never past the last slot. */
  function Slot(hash: bv64, mask: nat): (k: nat)
    ensures k <= mask
  {
    BitAnd(hash as int, mask)
  }

  function Pow2(n: nat): (p: nat)
    ensures p >= 1
  {
    if n == 0 then 1 else 2 * Pow2(n - 1)
  }

  /** With `mask + 1` a power of two, the slot is the key modulo the number of slots: every slot is reachable. */
  lemma {:induction false} SlotIsRemainder(x: nat, n: nat)
    ensures BitAnd(x, Pow2(n) - 1) == x % Pow2(n)
  {
    if n == 0 {
    } else if x == 0 {
    } else {
      var m := Pow2(n - 1);
      SlotIsRemainder(x / 2, n - 1);
      assert (Pow2(n) - 1) / 2 == m - 1 && (Pow2(n) - 1) % 2 == 1;
      assert BitAnd(x, Pow2(n) - 1) == 2 * ((x / 2) % m) + x % 2;
      HalvesRemainder(x, m);
    }
  }

  lemma HalvesRemainder(x: nat, m: nat)
    requires m >= 1
    ensures 2 * ((x / 2) % m) + x % 2 == x % (2 * m)
  {
    var q, r := (x / 2) / m, (x / 2) % m;
    assert x / 2 == q * m + r;
    assert x == q * (2 * m) + (2 * r + x % 2);
    RemainderUnique(x, 2 * m, q, 2 * r + x % 2);
  }

  lemma RemainderUnique(x: nat, d: nat, q: nat, r: nat)
    requires d >= 1 && x == q * d + r && r < d
    ensures x % d == r
  {
    var q2, r2 := x / d, x % d;
    if q < q2 {
      ProductGrows(q, q2, d);
    } else if q > q2 {
      ProductGrows(q2, q, d);
    }
  }

  lemma {:induction false} ProductGrows(a: nat, b: nat, d: nat)
    requires a < b
    ensures a * d + d <= b * d
    decreases b - a
  {
    assert b * d == (b - 1) * d + d;
    if a < b - 1 {
      ProductGrows(a, b - 1, d);
    }
  }

  /* ---------------------------------------------------------------- */
  /* One slot                                                          */
  /* ---------------------------------------------------------------- */

  /**
   * tt_save on the slot's entry `e`: the slot keeps a deeper entry for the
   * same key and otherwise takes all four new fields.
   */
  function Store(e: Entry, hash: bv64, val: int, depth: U16, flag: U16): (r: Entry)
    ensures r.hash == hash && r.depth >= depth
  {
    if e.hash == hash && e.depth > depth then e else Entry(hash, val, depth, flag)
  }

  /** The slot keeps its entry exactly when it holds the same key at a greater depth, and otherwise holds the new one. */
  lemma StoreCases(e: Entry, hash: bv64, val: int, depth: U16, flag: U16)
    ensures e.hash == hash && e.depth > depth ==> Store(e, hash, val, depth, flag) == e
    ensures !(e.hash == hash && e.depth > depth) ==> Store(e, hash, val, depth, flag) == Entry(hash, val, depth, flag)
  {
  }

  /**
   * tt_probe on the slot's entry `e`: a usable entry (same key, searched
   * at least as deep) gives its exact score, or the window bound it
   * proves; anything else gives 0.
   */
  function ProbeEntry(e: Entry, hash: bv64, alpha: int, beta: int, depth: U16): (v: int)
    ensures v != 0 ==> e.hash == hash && e.depth >= depth
  {
    if hash == e.hash && e.depth >= depth then
      if e.flag == EXACT then e.val
      else if e.flag == ALPHA && e.val <= alpha then alpha
      else if e.flag == BETA && e.val >= beta then beta
      else 0
    else 0
  }

  /**
   * A non-zero answer is the stored exact score, or alpha from an upper
   * bound at or below alpha, or beta from a lower bound at or above beta;
   * another key or a shallower entry answers 0.
   */
  lemma ProbeEntryAnswers(e: Entry, hash: bv64, alpha: int, beta: int, depth: U16)
    ensures var v := ProbeEntry(e, hash, alpha, beta, depth);
            v != 0 ==> (e.flag == EXACT && v == e.val) || (e.flag == ALPHA && v == alpha && e.val <= alpha) ||
                       (e.flag == BETA && v == beta && e.val >= beta)
    ensures e.hash != hash || e.depth < depth ==> ProbeEntry(e, hash, alpha, beta, depth) == 0
  {
  }

  /** tt_perft_save on the slot's entry: a same-key entry of another depth is kept; the flag is never touched. */
  function PerftStore(e: Entry, hash: bv64, data: int, depth: int): (r: Entry)
    ensures r.flag == e.flag && r.hash == hash
    ensures e.hash == hash && e.depth != depth ==> r == e
    ensures !(e.hash == hash && e.depth != depth) ==> r.val == data && r.depth == depth % 0x1_0000
  {
    if e.hash == hash && e.depth != depth then e
    else e.(hash := hash, val := data, depth := depth % 0x1_0000)
  }

  /** tt_perft_probe on the slot's entry: the count only for the same key at the same depth. */
  function PerftProbeEntry(e: Entry, hash: bv64, depth: int): (v: int)
    ensures hash == e.hash && e.depth == depth ==> v == e.val
    ensures !(hash == e.hash && e.depth == depth) ==> v == 0
  {
    if hash == e.hash && e.depth == depth then e.val else 0
  }

  /** An exact score saved is found again by any probe of the same key that asks for no more depth. */
  lemma SaveThenProbeExact(e: Entry, hash: bv64, val: int, depth: U16, alpha: int, beta: int, asked: U16)
    requires !(e.hash == hash && e.depth > depth) && asked <= depth
    ensures ProbeEntry(Store(e, hash, val, depth, EXACT), hash, alpha, beta, asked) == val
  {
  }

  /** A saved upper bound answers alpha exactly when it proves the score cannot exceed alpha. */
  lemma SaveThenProbeAlpha(e: Entry, hash: bv64, val: int, depth: U16, alpha: int, beta: int, asked: U16)
    requires !(e.hash == hash && e.depth > depth) && asked <= depth && alpha != 0
    ensures ProbeEntry(Store(e, hash, val, depth, ALPHA), hash, alpha, beta, asked) == (if val <= alpha then alpha else 0)
  {
  }

  /** A saved lower bound answers beta exactly when it proves the score reaches beta. */
  lemma SaveThenProbeBeta(e: Entry, hash: bv64, val: int, depth: U16, alpha: int, beta: int, asked: U16)
    requires !(e.hash == hash && e.depth > depth) && asked <= depth && beta != 0
    ensures ProbeEntry(Store(e, hash, val, depth, BETA), hash, alpha, beta, asked) == (if val >= beta then beta else 0)
  {
  }

  /** Saving never loses a deeper result for the same key: whatever probe it answered, it still answers. */
  lemma SaveKeepsDeeper(e: Entry, val: int, depth: U16, flag: U16, alpha: int, beta: int, asked: U16)
    requires e.depth > depth
    ensures ProbeEntry(Store(e, e.hash, val, depth, flag), e.hash, alpha, beta, asked) == ProbeEntry(e, e.hash, alpha, beta, asked)
  {
  }

  /** A perft count saved at a depth in range is read back at that depth. */
  lemma PerftRoundTrip(e: Entry, hash: bv64, data: int, depth: int)
    requires !(e.hash == hash && e.depth != depth) && 0 <= depth < 0x1_0000
    ensures PerftProbeEntry(PerftStore(e, hash, data, depth), hash, depth) == data
  {
  }

  /* ---------------------------------------------------------------- */
  /* The table                                                         */
  /* ---------------------------------------------------------------- */

  /** tt_save on the contents of a table of `mask + 1` entries: nothing without a table, otherwise only the key's slot changes, as Store says. */
  function Saved(table: seq<Entry>, mask: nat, hash: bv64, val: int, depth: U16, flag: U16): (r: seq<Entry>)
    requires mask > 0 ==> |table| == mask + 1
    ensures |r| == |table|
    ensures mask == 0 ==> r == table
  {
    if mask == 0 then table
    else table[Slot(hash, mask) := Store(table[Slot(hash, mask)], hash, val, depth, flag)]
  }

  /** The static `tt` array and `tt_size`. */
  class Table {
    var entries: array<Entry>
    var mask: nat

    /** With a table present, it has exactly `mask + 1` entries; with `mask` zero nothing is read or written. */
    ghost predicate Valid()
      reads this
    {
      mask > 0 ==> entries.Length == mask + 1
    }

    /** No table yet. */
    constructor ()
      ensures Valid() && mask == 0
    {
      entries := new Entry[0];
      mask := 0;
    }

    /**
     * tt_setsize: round `size` bytes down to a power of two and make room
     * for that many bytes of 16-byte entries, or switch the table off
     * below 16 bytes.  The new memory is uninitialised: its contents are
     * whatever `garbage` says.
     */
    method SetSize(size: Int32, garbage: nat -> Entry) returns (ok: bool)
      modifies this
      ensures Valid()
      ensures ok == !BelowSixteen(RoundDown(size))
      ensures mask == (if ok then (RoundDown(size) >> 4) as int - 1 else 0)
      ensures ok ==> fresh(entries) && entries.Length == mask + 1 &&
                     forall k :: 0 <= k < entries.Length ==> entries[k] == garbage(k)
    {
      var s := size;
      if !SingleOrZero(s) {
        s := s - 1;
        var i := 1;
        while i < 32
          invariant IsShift(i) || i == 32
          invariant s == Passes(ShiftOr, size - 1, i)
        {
          s := ShiftOr(s, i);
          i := i * 2;
        }
        s := Halve(s);
      }
      if BelowSixteen(s) {
        mask := 0;
        return false;
      }
      mask := (s >> 4) as int - 1;
      entries := new Entry[(s >> 4) as int](k => garbage(k));
      ok := true;
    }

    /** tt_save: the contents become those Saved describes. */
    method Save(hash: bv64, val: int, depth: U16, flag: U16)
      requires Valid()
      modifies entries
      ensures entries[..] == Saved(old(entries[..]), mask, hash, val, depth, flag)
    {
      if mask == 0 {
        return;
      }
      var k := Slot(hash, mask);
      var e := entries[k];
      if e.hash == hash && e.depth > depth {
        return;
      }
      entries[k] := Entry(hash, val, depth, flag);
    }

    /** tt_probe: 0 without a table, otherwise the answer of the key's slot. */
    function Probe(hash: bv64, alpha: int, beta: int, depth: U16): (v: int)
      requires Valid()
      reads this, entries
      ensures mask == 0 ==> v == 0
      ensures mask > 0 ==> v == ProbeEntry(entries[Slot(hash, mask)], hash, alpha, beta, depth)
    {
      if mask == 0 then 0 else ProbeEntry(entries[Slot(hash, mask)], hash, alpha, beta, depth)
    }

    /** tt_perft_save: at most the key's slot changes, and it changes as PerftStore says. */
    method PerftSave(hash: bv64, data: int, depth: int)
      requires Valid()
      modifies entries
      ensures mask == 0 ==> entries[..] == old(entries[..])
      ensures mask > 0 ==>
        entries[..] == old(entries[..])[Slot(hash, mask) := PerftStore(old(entries[Slot(hash, mask)]), hash, data, depth)]
    {
      if mask == 0 {
        return;
      }
      var k := Slot(hash, mask);
      var e := entries[k];
      if e.hash == hash && e.depth != depth {
        return;
      }
      entries[k] := e.(hash := hash, val := data, depth := depth % 0x1_0000);
    }

    /** tt_perft_probe: 0 without a table, otherwise the answer of the key's slot. */
    function PerftProbe(hash: bv64, depth: int): (v: int)
      requires Valid()
      reads this, entries
      ensures mask == 0 ==> v == 0
      ensures mask > 0 ==> v == PerftProbeEntry(entries[Slot(hash, mask)], hash, depth)
    {
      if mask == 0 then 0 else PerftProbeEntry(entries[Slot(hash, mask)], hash, depth)
    }
  }

  /**
   * Saving an exact score and probing the same key at no greater depth,
   * with no save in between, returns the score, unless the slot already
   * held a deeper result for the key or there is no table.
   */
  method SaveThenProbe(t: Table, hash: bv64, val: int, depth: U16, alpha: int, beta: int, asked: U16) returns (v: int)
    requires t.Valid() && t.mask > 0 && asked <= depth
    requires !(t.entries[Slot(hash, t.mask)].hash == hash && t.entries[Slot(hash, t.mask)].depth > depth)
    modifies t.entries
    ensures v == val
  {
    var e := t.entries[Slot(hash, t.mask)];
    t.Save(hash, val, depth, EXACT);
    SaveThenProbeExact(e, hash, val, depth, alpha, beta, asked);
    v := t.Probe(hash, alpha, beta, asked);
  }

  /** A save to another slot leaves every probe of this key as it was. */
  method SaveElsewhere(t: Table, hash: bv64, other: bv64, val: int, depth: U16, flag: U16, alpha: int, beta: int, asked: U16)
    returns (before: int, after: int)
    requires t.Valid() && Slot(hash, t.mask) != Slot(other, t.mask)
    modifies t.entries
    ensures before == after
  {
    before := t.Probe(hash, alpha, beta, asked);
    t.Save(other, val, depth, flag);
    after := t.Probe(hash, alpha, beta, asked);
  }

  /** The table main sets up: 144000000 bytes become 2^23 slots with mask 2^23 - 1. */
  method EngineDefaultTable(garbage: nat -> Entry) returns (ok: bool, mask: nat, slots: nat)
    ensures ok && mask == 0x7F_FFFF && slots == 0x80_0000
  {
    var t := new Table();
    EngineDefaultSize();
    ok := t.SetSize(144000000, garbage);
    mask := t.mask;
    slots := t.entries.Length;
  }

  /** Sixteen bytes are accepted (one entry) yet leave `tt_size` zero, which every other operation reads as "no table". */
  method SixteenBytes(garbage: nat -> Entry, hash: bv64, alpha: int, beta: int, depth: U16) returns (ok: bool, v: int)
    ensures ok && v == 0
  {
    var t := new Table();
    ok := t.SetSize(16, garbage);
    t.Save(hash, 5, depth, EXACT);
    v := t.Probe(hash, alpha, beta, depth);
  }
}
