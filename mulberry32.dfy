/**
 * The Mulberry32 generator and its three helpers (src/lib/mulberry32.ts).
 *
 * The generator closes over a JavaScript number `seed` that is advanced by
 * 0x6d2b79f5 on every call and never reduced. Every bit operation on it goes
 * through ToInt32/ToUint32, and `Math.imul` keeps the low 32 bits of a product,
 * so the mixing is arithmetic modulo 2^32. It is written here on unsigned 32-bit
 * values held as `nat`s below 2^32 (signed and unsigned readings agree modulo
 * 2^32, and the final `>>> 0` picks the unsigned one).
 */
module Mulberry32 {
  import opened Wrappers

  /** The increment added to the seed on every call. */
  const Increment: int := 0x6d2b79f5

  const Two32: int := 0x1_0000_0000

  function Pow2(n: nat): (r: nat)
    ensures r >= 1
  {
    if n == 0 then 1 else 2 * Pow2(n - 1)
  }

  lemma {:induction false} Pow2Add(a: nat, b: nat)
    ensures Pow2(a + b) == Pow2(a) * Pow2(b)
  {
    if a > 0 {
      Pow2Add(a - 1, b);
    }
  }

  lemma Pow2At32()
    ensures Pow2(32) == Two32
  {
    assert Pow2(4) == 16;
    Pow2Add(4, 4);
    Pow2Add(8, 8);
    Pow2Add(16, 16);
  }

  /** Bitwise exclusive or of the low `n` bits of `a` and `b`. */
  function XorBits(a: nat, b: nat, n: nat): (r: nat)
    ensures r < Pow2(n)
  {
    if n == 0 then 0
    else 2 * XorBits(a / 2, b / 2, n - 1) + (if a % 2 == b % 2 then 0 else 1)
  }

  /** Bitwise or of the low `n` bits of `a` and `b`. */
  function OrBits(a: nat, b: nat, n: nat): (r: nat)
    ensures r < Pow2(n)
  {
    if n == 0 then 0
    else 2 * OrBits(a / 2, b / 2, n - 1) + (if a % 2 == 1 || b % 2 == 1 then 1 else 0)
  }

  /** `a ^ b` on 32-bit values. */
  function Xor(a: nat, b: nat): (r: nat)
    ensures r < Two32
  {
    Pow2At32();
    XorBits(a, b, 32)
  }

  /** `a | b` on 32-bit values. */
  function Or(a: nat, b: nat): (r: nat)
    ensures r < Two32
  {
    Pow2At32();
    OrBits(a, b, 32)
  }

  /** `Math.imul(a, b)`: the low 32 bits of the product. */
  function Imul(a: nat, b: nat): (r: nat)
    ensures r < Two32
  {
    (a * b) % Two32
  }

  /** `a + b` followed by a 32-bit bit operation: the low 32 bits of the sum. */
  function Add(a: nat, b: nat): (r: nat)
    ensures r < Two32
  {
    (a + b) % Two32
  }

  /** `a >>> n` on a 32-bit value: `n` halvings, each dropping the lowest bit. */
  function Shr(a: nat, n: nat): (r: nat)
    ensures r <= a
  {
    if n == 0 then a else Shr(a / 2, n - 1)
  }

  /** ToUint32 of an integral JavaScript number. */
  function ToUint32(n: int): (r: nat)
    ensures r < Two32
  {
    n % Two32
  }

  /** The mixing rounds applied to the freshly advanced seed, ending in `>>> 0`. */
  function Mix(t0: nat): (r: nat)
    ensures r < Two32
  {
    var t1 := Imul(Xor(t0, Shr(t0, 15)), Or(t0, 1));
    var t2 := Xor(t1, Add(t1, Imul(Xor(t1, Shr(t1, 7)), Or(t1, 61))));
    Xor(t2, Shr(t2, 14))
  }

  /** The value a call returns once the seed has been advanced to `seed`. */
  function Output(seed: int): (r: real)
    ensures 0.0 <= r < 1.0
  {
    Mix(ToUint32(seed)) as real / Two32 as real
  }

  /** The value returned by call number `k` (0-based) of a generator created with `seed0`. */
  function Draw(seed0: int, k: nat): (r: real)
    ensures 0.0 <= r < 1.0
  {
    Output(seed0 + (k + 1) * Increment)
  }

  /** The first `n` values of a generator created with `seed0`, in call order. */
  function Drawn(seed0: int, n: nat): (rs: seq<real>)
    ensures |rs| == n && forall k :: 0 <= k < n ==> rs[k] == Draw(seed0, k) && 0.0 <= rs[k] < 1.0
  {
    seq(n, k requires 0 <= k => Draw(seed0, k))
  }

  /** One more call extends the draws by the output of the seed advanced once more. */
  lemma DrawnSnoc(seed0: int, i: nat)
    ensures Drawn(seed0, i + 1) == Drawn(seed0, i) + [Draw(seed0, i)]
    ensures Draw(seed0, i) == Output(seed0 + i * Increment + Increment)
  {
    var a, b := Drawn(seed0, i + 1), Drawn(seed0, i) + [Draw(seed0, i)];
    forall k | 0 <= k < i + 1
      ensures a[k] == b[k]
    {
      if k < i {
        assert b[k] == Drawn(seed0, i)[k];
      }
    }
    assert (i + 1) * Increment == i * Increment + Increment;
  }

  /** The closure returned by `mulberry32(seed)`: its only state is the captured seed. */
  class Rng {
    var seed: int

    constructor (seed0: int)
      ensures seed == seed0
    {
      seed := seed0;
    }

    /** One call of the generator. */
    method Next() returns (r: real)
      modifies this
      ensures seed == old(seed) + Increment
      ensures r == Output(seed)
      ensures 0.0 <= r < 1.0
    {
      seed := seed + Increment;
      r := Output(seed);
    }

    /** `n` calls in a row, their values in call order. */
    method Many(n: nat) returns (rs: seq<real>)
      modifies this
      ensures seed == old(seed) + n * Increment
      ensures rs == Drawn(old(seed), n)
    {
      ghost var s0 := seed;
      rs := [];
      var i := 0;
      while i < n
        invariant i <= n && seed == s0 + i * Increment
        invariant rs == Drawn(s0, i)
      {
        var r := Next();
        DrawnSnoc(s0, i);
        rs := rs + [r];
        i := i + 1;
      }
    }

    /** `seededRandom(rng, min, max)`: one draw. */
    method Range(min: real, max: real) returns (v: real)
      modifies this
      ensures seed == old(seed) + Increment
      ensures v == SeededRandom(Output(seed), min, max)
    {
      var r := Next();
      v := SeededRandom(r, min, max);
    }

    /** `seededRandomInt(rng, min, max)`: one draw. */
    method Int(min: int, max: int) returns (n: int)
      modifies this
      ensures seed == old(seed) + Increment
      ensures n == SeededRandomInt(Output(seed), min, max)
    {
      var r := Next();
      n := SeededRandomInt(r, min, max);
    }

    /** `seededPick(rng, arr)`: one draw. */
    method Pick<T>(arr: seq<T>) returns (x: Option<T>)
      modifies this
      ensures seed == old(seed) + Increment
      ensures x == SeededPick(Output(seed), arr)
    {
      var r := Next();
      x := SeededPick(r, arr);
    }
  }

  /** `min + r * (max - min)` for a draw `r`. */
  function SeededRandom(r: real, min: real, max: real): (v: real)
    ensures 0.0 <= r < 1.0 && min < max ==> min <= v < max
    ensures 0.0 <= r < 1.0 && max < min ==> max < v <= min
    ensures min == max ==> v == min
  {
    var d := max - min;
    ScaleBelow(r, d);
    assert min + r * d - max == r * d - d;
    min + r * d
  }

  /** `Math.floor(seededRandom(rng, min, max + 1))`. */
  function SeededRandomInt(r: real, min: int, max: int): (n: int)
    ensures 0.0 <= r < 1.0 && min <= max ==> min <= n <= max
  {
    SeededRandom(r, min as real, (max + 1) as real).Floor
  }

  /** `arr[Math.floor(r * arr.length)]`; an empty array yields `undefined`. */
  function SeededPick<T>(r: real, arr: seq<T>): (x: Option<T>)
    ensures 0.0 <= r < 1.0 ==> (x.Some? <==> |arr| > 0)
    ensures x.Some? ==> x.value in arr
  {
    var i := (r * |arr| as real).Floor;
    if 0 <= i < |arr| then Some(arr[i]) else None
  }

  /** A draw in [0,1) scaled by `d` stays strictly inside the interval spanned by 0 and `d`. */
  lemma ScaleBelow(r: real, d: real)
    ensures 0.0 <= r < 1.0 && d > 0.0 ==> 0.0 <= r * d < d
    ensures 0.0 <= r < 1.0 && d < 0.0 ==> d < r * d <= 0.0
  {
    if 0.0 <= r < 1.0 && d > 0.0 {
      assert r * d < 1.0 * d;
    }
    if 0.0 <= r < 1.0 && d < 0.0 {
      assert r * (-d) < 1.0 * (-d);
    }
  }

  /** The index used by `seededPick` is in bounds whenever the array is not empty. */
  lemma {:induction false} PickIndexInBounds(r: real, n: nat)
    requires 0.0 <= r < 1.0 && n > 0
    ensures 0 <= (r * n as real).Floor < n
  {
    ScaleBelow(r, n as real);
  }

  /** The output depends on the seed only modulo 2^32. */
  lemma OutputModulo(seed: int, k: int)
    ensures Output(seed + k * Two32) == Output(seed)
  {
    assert (seed + k * Two32) % Two32 == seed % Two32;
  }

  /**
   * A generator that has made `m` calls continues exactly like a fresh generator
   * created with the advanced seed: the seed is the whole state.
   */
  lemma {:induction false} DrawShift(seed0: int, m: nat, k: nat)
    ensures Draw(seed0, m + k) == Draw(seed0 + m * Increment, k)
  {
    assert seed0 + (m + k + 1) * Increment == seed0 + m * Increment + (k + 1) * Increment;
  }

  /**
   * Running a fresh generator `n` times yields the draws `Draw(seed0, 0..n)`:
   * two generators created with the same seed give the same sequence.
   */
  method Take(seed0: int, n: nat) returns (rs: seq<real>)
    ensures |rs| == n
    ensures forall k :: 0 <= k < n ==> rs[k] == Draw(seed0, k)
  {
    var rng := new Rng(seed0);
    rs := [];
    var i := 0;
    while i < n
      invariant i <= n && |rs| == i
      invariant rng.seed == seed0 + i * Increment
      invariant forall k :: 0 <= k < i ==> rs[k] == Draw(seed0, k)
    {
      var r := rng.Next();
      rs := rs + [r];
      i := i + 1;
    }
  }
}
