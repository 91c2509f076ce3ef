/**
  The seeded pseudo-random source of app.js (`seededRandomFactory`): a
  32-bit xorshift generator whose closure state `x` is advanced by every draw.
  JavaScript's `<<` wraps modulo 2^32 and `>>>` is a logical shift, so `bv32`
  is bit-exact.
*/
module Xorshift {

  /** `s >>> 0`: the seed reduced modulo 2^32. */
  function SeedState(s: int): bv32 {
    (s % 0x1_0000_0000) as bv32
  }

  /** One advance of the state: `x ^= x << 13; x ^= x >>> 17; x ^= x << 5`. */
  function Step(x: bv32): (r: bv32)
    ensures r == 0 <==> x == 0
  {
    var a := x ^ (x << 13);
    var b := a ^ (a >> 17);
    b ^ (b << 5)
  }

  /** The state after `k` draws from state `x`. */
  function StateAfter(x: bv32, k: nat): (r: bv32)
    ensures r == 0 <==> x == 0
    decreases k
  {
    if k == 0 then x else Step(StateAfter(x, k - 1))
  }

  /** The numerator of draw number `i` (counting from 0) from seed state `seed`. */
  function NthDraw(seed: bv32, i: nat): (r: bv32)
    ensures r == 0 <==> seed == 0
  {
    StateAfter(seed, i + 1)
  }

  /** The numerators of the first `n` draws. */
  function Draws(seed: bv32, n: nat): seq<bv32> {
    seq(n, i requires 0 <= i < n => NthDraw(seed, i))
  }

  /** The value a draw returns: `(x >>> 0) / 4294967295`. */
  function DrawValue(x: bv32): (r: real)
    ensures 0.0 <= r <= 1.0
    ensures r == 1.0 <==> x == 0xFFFF_FFFF
  {
    var n := x as int;
    assert n == 0xFFFF_FFFF <==> x == 0xFFFF_FFFF;
    n as real / 4294967295.0
  }

  /** Drawing one more value extends the stream by that draw. */
  lemma DrawsSnoc(seed: bv32, n: nat)
    ensures Draws(seed, n + 1) == Draws(seed, n) + [NthDraw(seed, n)]
  {
    assert Draws(seed, n + 1)[..n] == Draws(seed, n);
  }

  /**
    The state of the closure returned by `seededRandomFactory`. The ghost
    fields remember the seed state and the draws taken so far, so that each
    draw can be named by its position in the stream.
  */
  class Generator {
    var x: bv32
    ghost var origin: bv32
    ghost var drawn: seq<bv32>

    ghost predicate Valid()
      reads this
    {
      x == StateAfter(origin, |drawn|) && drawn == Draws(origin, |drawn|)
    }

    constructor (s: int)
      ensures Valid() && origin == SeedState(s) && drawn == []
      ensures x == SeedState(s)
    {
      x := SeedState(s);
      origin := SeedState(s);
      drawn := [];
    }

    /** `rand()`: advances the state and returns the numerator of the next draw in the stream. */
    method Next() returns (n: bv32)
      requires Valid()
      modifies this
      ensures x == Step(old(x)) && n == x
      ensures Valid() && origin == old(origin) && drawn == old(drawn) + [n]
      ensures n == NthDraw(origin, |old(drawn)|)
    {
      DrawsSnoc(origin, |drawn|);
      x := Step(x);
      n := x;
      drawn := drawn + [n];
    }
  }

  /** Drawing `j` and then `k` values is drawing `j + k` values: the stream is one sequence. */
  lemma {:induction false} StateAfterAdd(x: bv32, j: nat, k: nat)
    ensures StateAfter(StateAfter(x, j), k) == StateAfter(x, j + k)
    decreases k
  {
    if k > 0 {
      StateAfterAdd(x, j, k - 1);
    }
  }

  /** A draw of exactly 1 is reachable: from state 0x5E6CFCE7 the next draw is 0xFFFFFFFF / 4294967295. */
  lemma DrawOfOneReachable()
    ensures NthDraw(0x5E6C_FCE7, 0) == 0xFFFF_FFFF
    ensures DrawValue(NthDraw(0x5E6C_FCE7, 0)) == 1.0
  {
  }
}
