/** The seeded pseudo-random generator (mulberry32) and the date-string hash (src/utils/rng.ts). */
module Rng {
  import opened Types

  const TWO_32: int := 0x1_0000_0000
  const TWO_31: int := 0x8000_0000

  /** The odd constant added to the state on every draw. */
  const INCREMENT: bv32 := 0x6D2B79F5

  // ---------------------------------------------------------------------------
  // The generator as functions of the 32-bit state

  /** The state of a generator built from `seed`: the seed truncated to 32 bits. */
  function SeedState(seed: int): bv32
  {
    (seed % TWO_32) as bv32
  }

  /** The additive step every draw starts with. */
  function Advance(s: bv32): bv32
  {
    s + INCREMENT
  }

  /** The mixing of a draw: two xor-shift/multiply rounds (`Math.imul` is the
      product modulo 2^32) and a final xor-shift. It is a function value so that
      proofs which only pass output words around do not expand the products. */
  const Mix: bv32 -> bv32 := s =>
    var t := (s ^ (s >> 15)) * (1 | s);
    var t' := (t + (t ^ (t >> 7)) * (61 | t)) ^ t;
    t' ^ (t' >> 14)

  /** The 32-bit output word of a draw whose already advanced state is `s`. */
  function Output(s: bv32): bv32
  {
    Mix(s)
  }

  /** The first draw of a generator seeded with 1: the state becomes 0x6D2B79F6
      and the output word is 0xA087EAF3, so `next()` returns about 0.627. */
  lemma FirstDrawOfSeedOne()
    ensures Advance(SeedState(1)) == 0x6D2B79F6
    ensures Output(Advance(SeedState(1))) == 0xA087EAF3
    ensures 0.627 < Fraction(Output(Advance(SeedState(1)))) < 0.628
  {
  }

  /** The state after `n` draws. */
  function AdvanceN(s: bv32, n: nat): bv32
    decreases n
  {
    if n == 0 then s else AdvanceN(Advance(s), n - 1)
  }

  /** The first `n` output words drawn from state `s`. */
  function Draws(s: bv32, n: nat): (r: seq<bv32>)
    ensures |r| == n
    decreases n
  {
    if n == 0 then [] else [Output(Advance(s))] + Draws(Advance(s), n - 1)
  }

  /** The bit-vector to integer conversion, as a function value so that proofs
      which only compare output words do not reason about the conversion. */
  const ToNat: bv32 -> int := u => u as int

  /** An output word read as an unsigned integer (the source's `>>> 0`). */
  function U32(u: bv32): (n: nat)
    ensures n < TWO_32
  {
    ToNat(u)
  }

  /** The float `next()` returns: the output word divided by 2^32. */
  function Fraction(u: bv32): (r: real)
    ensures 0.0 <= r < 1.0
  {
    U32(u) as real / 4294967296.0
  }

  /** `next() < percent / 100`, as an integer comparison on the output word u.
      The doubles the source compares against (0.04, 0.06, 0.6) are not exactly
      4/100, 6/100 and 60/100, but no u / 2^32 lies between a double and its decimal. */
  predicate Below(u: bv32, percent: nat)
  {
    U32(u) * 100 < percent * TWO_32
  }

  /** Below is the comparison of the float `next()` returns. */
  lemma BelowFraction(u: bv32, percent: nat)
    ensures Below(u, percent) <==> Fraction(u) < percent as real / 100.0
  {
    var x := U32(u) as real;
    assert Fraction(u) == x / 4294967296.0;
  }

  /** A word below 2^32 times a positive span stays below 2^32 times the span; it keeps `nextInt` in range. */
  lemma MulBelow(u: int, d: int)
    requires 0 <= u < TWO_32 && 0 < d
    ensures 0 <= u * d < TWO_32 * d
  {
  }

  /** `nextInt(min, max)`: floor(u / 2^32 * (max - min)) + min, in exact arithmetic.
      Like Mix, a function value, so that proofs which only pass indices around
      do not expand the product. */
  const Scale: (bv32, int, int) -> int := (u, min, max) => (U32(u) * (max - min)) / TWO_32 + min

  /** `nextInt(min, max)` on the output word u; in [min, max) when min < max. */
  function ScaleInt(u: bv32, min: int, max: int): (r: int)
    ensures min < max ==> min <= r < max
    ensures min == max ==> r == min
  {
    if min < max then MulBelow(U32(u), max - min); Scale(u, min, max) else Scale(u, min, max)
  }

  // ---------------------------------------------------------------------------
  // Fisher-Yates as a function of the sequence and the state

  function Swap<T>(s: seq<T>, i: nat, j: nat): (r: seq<T>)
    requires i < |s| && j < |s|
    ensures |r| == |s| && multiset(r) == multiset(s)
    ensures r[i] == s[j] && r[j] == s[i]
    ensures forall k :: 0 <= k < |s| && k != i && k != j ==> r[k] == s[k]
  {
    s[i := s[j]][j := s[i]]
  }

  /** The shuffle loop from index `i` down to 1 and the state it leaves: at each
      `i` one draw picks `j` in [0, i] and cells `i` and `j` are exchanged. */
  function ShuffleFrom<T>(s: seq<T>, i: int, st: bv32): (r: (seq<T>, bv32))
    requires i < |s|
    ensures |r.0| == |s| && multiset(r.0) == multiset(s)
    ensures r.1 == AdvanceN(st, if i > 0 then i else 0)
    decreases i
  {
    if i <= 0 then (s, st)
    else
      var st' := Advance(st);
      var j := ScaleInt(Output(st'), 0, i + 1);
      ShuffleFrom(Swap(s, i, j), i - 1, st')
  }

  /** `shuffle`: the result and the state after it; `|s| - 1` draws when `s` is not empty. */
  function ShuffleSpec<T>(s: seq<T>, st: bv32): (seq<T>, bv32)
  {
    ShuffleFrom(s, |s| - 1, st)
  }

  // ---------------------------------------------------------------------------
  // The generator object

  class SeededRNG {
    var state: bv32

    constructor (seed: int)
      ensures state == SeedState(seed)
    {
      state := SeedState(seed);
    }

    /** `next()`, returning the output word u; the float the source returns is Fraction(u). */
    method Next() returns (u: bv32)
      modifies this
      ensures state == Advance(old(state))
      ensures u == Output(state)
    {
      state := state + INCREMENT;
      u := Output(state);
    }

    method NextInt(min: int, max: int) returns (r: int)
      modifies this
      ensures state == Advance(old(state))
      ensures r == ScaleInt(Output(state), min, max)
      ensures min < max ==> min <= r < max
    {
      var u := Next();
      r := ScaleInt(u, min, max);
    }

    method Pick<T>(arr: seq<T>) returns (x: T)
      requires |arr| > 0
      modifies this
      ensures state == Advance(old(state))
      ensures x == arr[ScaleInt(Output(state), 0, |arr|)]
      ensures x in arr
    {
      var k := NextInt(0, |arr|);
      x := arr[k];
    }

    /** In-place Fisher-Yates; returns the array it was given. */
    method Shuffle<T>(a: array<T>) returns (r: array<T>)
      modifies this, a
      ensures r == a
      ensures (a[..], state) == ShuffleSpec(old(a[..]), old(state))
      ensures multiset(a[..]) == multiset(old(a[..]))
      ensures state == AdvanceN(old(state), if a.Length > 0 then a.Length - 1 else 0)
    {
      var i := a.Length - 1;
      while i > 0
        invariant -1 <= i < a.Length
        invariant a.Length > 0 ==> 0 <= i
        invariant ShuffleFrom(a[..], i, state) == ShuffleSpec(old(a[..]), old(state))
      {
        ghost var before, st := a[..], state;
        var j := NextInt(0, i + 1);
        var t := a[i];
        a[i] := a[j];
        a[j] := t;
        assert ShuffleFrom(a[..], i - 1, state) == ShuffleFrom(before, i, st) by {
          assert a[..] == Swap(before, i, j);
        }
        i := i - 1;
      }
      r := a;
    }
  }

  // ---------------------------------------------------------------------------
  // dateSeed

  /** JavaScript's ToInt32: the signed 32-bit integer congruent to `x` modulo 2^32. */
  function ToInt32(x: int): (r: int)
    ensures -TWO_31 <= r < TWO_31
    ensures (x - r) % TWO_32 == 0
  {
    var m := x % TWO_32;
    if m >= TWO_31 then m - TWO_32 else m
  }

  lemma ToInt32Congruent(x: int, y: int, k: int)
    requires x == y + k * TWO_32
    ensures ToInt32(x) == ToInt32(y)
  {
    assert x % TWO_32 == y % TWO_32;
  }

  /** The rolling hash of `s`: h := ToInt32(31 * h + code) over the characters, from 0. */
  function HashOf(s: string): (h: int)
    ensures -TWO_31 <= h < TWO_31
  {
    if s == [] then 0 else ToInt32(31 * HashOf(s[..|s| - 1]) + s[|s| - 1] as int)
  }

  /** The step as the source writes it, `((hash << 5) - hash + char) | 0`, is the
      31 * hash + char step. */
  lemma ShiftStep(h: int, c: int)
    requires -TWO_31 <= h < TWO_31
    ensures ToInt32(ToInt32(h * 32) - h + c) == ToInt32(31 * h + c)
  {
    var a := ToInt32(h * 32);
    var k := (h * 32 - a) / TWO_32;
    assert h * 32 - a == k * TWO_32;
    ToInt32Congruent(31 * h + c, a - h + c, k);
  }

  method DateSeed(dateStr: string) returns (r: int)
    ensures r == Abs(HashOf(dateStr))
    ensures 0 <= r <= TWO_31
  {
    var hash := 0;
    var i := 0;
    while i < |dateStr|
      invariant 0 <= i <= |dateStr|
      invariant hash == HashOf(dateStr[..i])
    {
      var c := dateStr[i] as int;
      ShiftStep(hash, c);
      assert dateStr[..i + 1][..i] == dateStr[..i];
      hash := ToInt32(ToInt32(hash * 32) - hash + c);
      i := i + 1;
    }
    assert dateStr[..i] == dateStr;
    r := if hash < 0 then -hash else hash;
  }

  /** Seeds that agree modulo 2^32 produce the same draws. */
  lemma {:induction false} CongruentSeedsSameDraws(a: int, b: int, n: nat)
    requires (a - b) % TWO_32 == 0
    ensures Draws(SeedState(a), n) == Draws(SeedState(b), n)
  {
    assert a % TWO_32 == b % TWO_32 by {
      var k := (a - b) / TWO_32;
      assert a == b + k * TWO_32;
    }
  }

  /** Drawing n + m words is drawing n words and then m more from where they left off. */
  lemma {:induction false} DrawsSplit(s: bv32, n: nat, m: nat)
    decreases n
    ensures Draws(s, n + m) == Draws(s, n) + Draws(AdvanceN(s, n), m)
  {
    if n > 0 {
      DrawsSplit(Advance(s), n - 1, m);
    }
  }

  /** The first two of n >= 2 draws, and the rest drawn from two states on. */
  lemma DrawsTwo(s: bv32, n: nat)
    requires n >= 2
    ensures Draws(s, n) == [Output(Advance(s)), Output(Advance(Advance(s)))] + Draws(Advance(Advance(s)), n - 2)
  {
  }
}
