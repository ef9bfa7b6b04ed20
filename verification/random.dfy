/**
 * The two integer generators of the renderer:
 *  - FastRandom, the Park-Miller "minimal standard" generator
 *    seed' = 16807 * seed mod (2^31 - 1), computed with Schrage's method in
 *    32-bit signed arithmetic, with C's truncating division and remainder;
 *  - RandomGenerator, a multiply-with-carry generator on 32-bit unsigned
 *    words, whose carry is rebuilt from 16-bit halves.
 * Only the integer states are modelled; the float outputs are left out.
 */
module Random {

  import opened CArith

  // ---------------------------------------------------------------------
  // FastRandom
  // ---------------------------------------------------------------------

  const A: int := 0x0000_41A7
  const M: int := 0x7FFF_FFFF
  const Q: int := 0x0001_F31D
  const R: int := 0x0000_0B14

  /** The constants are those Schrage's method needs: M = A*Q + R with R < Q. */
  lemma SchrageConstants()
    ensures A == 16807 && M == 2147483647
    ensures Q == M / A && R == M % A
    ensures R < Q
  {
  }

  /** The three intermediate values of one Schrage step. */
  function HighPart(s: int): int { A * CMod(s, Q) }
  function LowPart(s: int): int { R * CDiv(s, Q) }

  /** `a*(seed%q) - r*(seed/q)`, before the sign fix-up. */
  function SchrageStep(s: int): int
  {
    HighPart(s) - LowPart(s)
  }

  /** The fix-up `if (v < 0) v += m`. */
  function FixUp(v: int): int
  {
    if v < 0 then v + M else v
  }

  /** The next seed of getNextInt. */
  function NextSeed(s: int): int
  {
    FixUp(SchrageStep(s))
  }

  /**
   * For every 32-bit seed, no intermediate value of the step leaves the range
   * (-M, M), so the signed 32-bit computation never overflows.
   */
  lemma SchrageNoOverflow(s: int)
    requires IsInt32(s)
    ensures -M < HighPart(s) < M
    ensures -M < LowPart(s) < M
    ensures -M < SchrageStep(s) < M
    ensures IsInt32(NextSeed(s))
  {
    var k, rem := CDiv(s, Q), CMod(s, Q);
    assert -Q < rem < Q;
    assert -16808 <= k <= 16807 by {
      if s >= 0 { assert k == s / Q; } else { assert k == -((-s) / Q); }
    }
    if s >= 0 {
      assert 0 <= rem && 0 <= k;
      assert 0 <= A * rem < M;
      assert 0 <= R * k < M;
    } else {
      assert rem <= 0 && k <= 0;
      assert -M < A * rem <= 0;
      assert -M < R * k <= 0;
    }
  }

  /** Schrage's identity: A * s == M * (s div Q) + SchrageStep(s) for non-negative s. */
  lemma SchrageIdentity(s: int)
    requires 0 <= s
    ensures A * s == M * (s / Q) + SchrageStep(s)
  {
    var k, rem := s / Q, s % Q;
    assert s == Q * k + rem;
    assert CDiv(s, Q) == k && CMod(s, Q) == rem;
    calc {
      A * s;
      A * (Q * k + rem);
      (A * Q) * k + A * rem;
      { assert A * Q == M - R; }
      (M - R) * k + A * rem;
      M * k + (A * rem - R * k);
    }
  }

  /** No seed in [1, M-1] is mapped to a multiple of M (M is prime and does not divide A). */
  lemma ProductNotMultiple(s: int)
    requires 0 < s < M
    ensures (A * s) % M != 0
  {
  }

  /**
   * getNextInt on a seed in [1, M-1]: the new seed is 16807 * seed mod M and
   * lies again in [1, M-1], so the generator never reaches 0.
   */
  lemma {:induction false} NextSeedIsParkMiller(s: int)
    requires 1 <= s < M
    ensures NextSeed(s) == (A * s) % M
    ensures 1 <= NextSeed(s) < M
  {
    SchrageIdentity(s);
    SchrageNoOverflow(s);
    var v := SchrageStep(s);
    var k := s / Q;
    assert A * s == M * k + v;
    var q, r := if v < 0 then k - 1 else k, FixUp(v);
    assert A * s == M * q + r && 0 <= r < M;
    CDivUnique(A * s, M, q, r);
    assert CMod(A * s, M) == (A * s) % M;
    ProductNotMultiple(s);
  }

  /**
   * The seed that the seeded getNextInt writes back: the step without the
   * fix-up, which that overload applies to the shared seed instead.
   */
  function SeededNextAsWritten(seed: int): int
  {
    SchrageStep(seed)
  }

  /** The seed Q (in range) makes the seeded overload return a negative seed. */
  lemma SeededNextCanBeNegative()
    ensures 1 <= Q < M
    ensures SeededNextAsWritten(Q) == -R
    ensures SeededNextAsWritten(Q) < 0
  {
  }

  /** The seeded overload with the fix-up applied to its own seed. */
  function SeededNext(seed: int): (r: int)
    ensures 1 <= seed < M ==> 1 <= r < M && r == (A * seed) % M
  {
    if 1 <= seed < M then NextSeedIsParkMiller(seed); FixUp(SchrageStep(seed))
    else FixUp(SchrageStep(seed))
  }

  /** The generator's shared state: the static seed `myseed_`. */
  class FastRandom {
    var mySeed: int

    constructor (initialSeed: int)
      ensures mySeed == initialSeed
    {
      mySeed := initialSeed;
    }

    /** getNextInt(): advance the shared seed and return it. */
    method NextInt() returns (r: int)
      modifies this
      ensures mySeed == NextSeed(old(mySeed)) && r == mySeed
      ensures 1 <= old(mySeed) < M ==> 1 <= r < M && r == (A * old(mySeed)) % M
    {
      mySeed := A * CMod(mySeed, Q) - R * CDiv(mySeed, Q);
      if mySeed < 0 {
        mySeed := mySeed + M;
      }
      r := mySeed;
      if 1 <= old(mySeed) < M { NextSeedIsParkMiller(old(mySeed)); }
    }

    /**
     * getNextInt(int &seed) as written: the caller's seed gets the step
     * without fix-up, and the fix-up is applied to the shared seed.
     */
    method NextIntSeededAsWritten(seed: int) returns (newSeed: int, r: int)
      modifies this
      ensures newSeed == SeededNextAsWritten(seed) && r == newSeed
      ensures mySeed == FixUp(old(mySeed))
    {
      newSeed := A * CMod(seed, Q) - R * CDiv(seed, Q);
      if mySeed < 0 {
        mySeed := mySeed + M;
      }
      r := newSeed;
    }

    /** getNextInt(int &seed) with the fix-up applied to the caller's seed; the shared seed is untouched. */
    method NextIntSeeded(seed: int) returns (newSeed: int, r: int)
      ensures newSeed == SeededNext(seed) && r == newSeed
      ensures 1 <= seed < M ==> 1 <= newSeed < M && newSeed == (A * seed) % M
    {
      newSeed := A * CMod(seed, Q) - R * CDiv(seed, Q);
      if newSeed < 0 {
        newSeed := newSeed + M;
      }
      r := newSeed;
    }
  }

  // ---------------------------------------------------------------------
  // RandomGenerator (multiply-with-carry)
  // ---------------------------------------------------------------------

  const MwcA: int := 1791398085
  const MwcAHigh: int := MwcA / 0x1_0000
  const MwcALow: int := MwcA % 0x1_0000

  predicate IsWord(v: int) { 0 <= v < Word }

  /** The new x_: x * a + c in 32-bit unsigned arithmetic. */
  function MwcNextX(x: int, c: int): int
  {
    (x * MwcA + c) % Word
  }

  /** The carry before the overflow bump, from the 16-bit halves of x and a. */
  function MwcPartialCarry(x: int): int
    requires IsWord(x)
  {
    var xh, xl := x / 0x1_0000, x % 0x1_0000;
    xh * MwcAHigh + (xh * MwcALow) / 0x1_0000 + (xl * MwcAHigh) / 0x1_0000
  }

  /** `~c + 1` on a 32-bit word. */
  function NegWord(c: int): int
    requires IsWord(c)
  {
    (Word - c) % Word
  }

  /** The new c_: the partial carry, plus one when `xl * a_low >= ~c + 1`. */
  function MwcNextCarry(x: int): int
    requires IsWord(x)
  {
    var c1 := MwcPartialCarry(x);
    var xl := x % 0x1_0000;
    if IsWord(c1) && xl * MwcALow >= NegWord(c1) then c1 + 1 else c1
  }

  /**
   * The new carry stays below the multiplier, so neither the sum of the
   * partial products nor the bump `c_++` wraps around 2^32.
   */
  lemma MwcCarryBounded(x: int)
    requires IsWord(x)
    ensures 0 <= MwcPartialCarry(x) < MwcA - 1
    ensures 0 <= MwcNextCarry(x) < MwcA
    ensures IsWord(MwcNextCarry(x))
  {
    var xh, xl := x / 0x1_0000, x % 0x1_0000;
    assert MwcAHigh == 27334 && MwcALow == 37061;
    assert 0 <= xh <= 0xFFFF && 0 <= xl <= 0xFFFF;
    assert xh * MwcAHigh <= 0xFFFF * 27334;
    assert xh * MwcALow <= 0xFFFF * 37061;
    assert xl * MwcAHigh <= 0xFFFF * 27334;
    assert (xh * MwcALow) / 0x1_0000 <= 37060;
    assert (xl * MwcAHigh) / 0x1_0000 <= 27333;
  }

  /** The default state draws (x, c) = (1741542611, 12889) first. */
  lemma MwcFirstDraw()
    ensures MwcNextX(30903, 0) == 1741542611
    ensures MwcNextCarry(30903) == 12889
  {
    assert MwcA == 1791398085 && Word == 4294967296;
    assert MwcAHigh == 27334 && MwcALow == 37061;
    assert 30903 * 1791398085 + 0 == 12889 * 4294967296 + 1741542611;
    assert 30903 / 0x1_0000 == 0 && 30903 % 0x1_0000 == 30903;
    assert 30903 * 27334 == 12889 * 0x1_0000 + 9098;
    assert MwcPartialCarry(30903) == 12889;
    assert NegWord(12889) == 4294954407;
    assert 30903 * 37061 == 1145296083;
  }

  class RandomGenerator {
    var x: int
    var c: int

    ghost predicate Valid()
      reads this
    {
      IsWord(x) && IsWord(c)
    }

    /** The default constructor: x_ = 30903, c_ = 0. */
    constructor ()
      ensures Valid() && x == 30903 && c == 0
    {
      x, c := 30903, 0;
    }

    /** The seeded constructor: the seed becomes the carry, x_ keeps its default. */
    constructor Seeded(seed: int)
      requires IsWord(seed)
      ensures Valid() && x == 30903 && c == seed
    {
      x, c := 30903, seed;
    }

    /** operator(): advance the state and return the new x_ (the scaling to a double is left out). */
    method Next() returns (r: int)
      requires Valid()
      modifies this
      ensures Valid()
      ensures x == MwcNextX(old(x), old(c)) && c == MwcNextCarry(old(x)) && r == x
      ensures c < MwcA
    {
      var xh, xl := x / 0x1_0000, x % 0x1_0000;
      MwcCarryBounded(x);
      x := (x * MwcA + c) % Word;
      c := xh * MwcAHigh + (xh * MwcALow) / 0x1_0000 + (xl * MwcAHigh) / 0x1_0000;
      if xl * MwcALow >= (Word - c) % Word {
        c := c + 1;
      }
      r := x;
    }
  }
}
