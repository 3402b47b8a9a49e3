/** The integer square root and vector magnitude of src/lowpassfilter.c,
    computed in 32-bit unsigned arithmetic. */
module IntegerRoot {
  import opened Machine

  function Pow2(k: nat): (p: nat)
    ensures p >= 1
  {
    if k == 0 then 1 else 2 * Pow2(k - 1)
  }

  /** Reference definition of the floor square root, independent of the
      bit-by-bit algorithm: the largest r whose square does not exceed n. */
  function FloorSqrt(n: nat): nat
  {
    if n == 0 then 0
    else
      var r := FloorSqrt(n - 1);
      if (r + 1) * (r + 1) <= n then r + 1 else r
  }

  lemma {:induction false} FloorSqrtBounds(n: nat)
    ensures FloorSqrt(n) * FloorSqrt(n) <= n < (FloorSqrt(n) + 1) * (FloorSqrt(n) + 1)
  {
    if n > 0 {
      FloorSqrtBounds(n - 1);
      var r := FloorSqrt(n - 1);
      if (r + 1) * (r + 1) <= n {
        assert (r + 1) * (r + 1) == n;
        SquareGrows(r + 1, r + 2);
      }
    }
  }

  lemma SquareGrows(a: nat, b: nat)
    requires a < b
    ensures a * a < b * b
  {
    assert a * a <= a * b;
  }

  /** The floor square root is the only r with r*r <= n < (r+1)*(r+1). */
  lemma FloorSqrtUnique(n: nat, r: nat)
    requires r * r <= n < (r + 1) * (r + 1)
    ensures r == FloorSqrt(n)
  {
    var s := FloorSqrt(n);
    FloorSqrtBounds(n);
    if r < s {
      SquareGrows(r + 1, s + 1);
      if r + 1 < s { SquareGrows(r + 1, s); }
    } else if s < r {
      SquareGrows(s + 1, r + 1);
      if s + 1 < r { SquareGrows(s + 1, r); }
    }
  }

  lemma SquareDifference(p: int, a: int)
    ensures (p + a) * (p + a) - p * p == (2 * p + a) * a
  {
  }

  /** `x | (1 << k)` on a non-negative integer: sets bit k. */
  function SetBit(x: nat, k: nat): nat
  {
    if (x / Pow2(k)) % 2 == 1 then x else x + Pow2(k)
  }

  lemma SetClearBit(x: nat, q: nat, k: nat)
    requires x == 2 * (q * Pow2(k))
    ensures SetBit(x, k) == x + Pow2(k)
  {
    assert x == Pow2(k) * (2 * q);
    DivModUnique(x, Pow2(k), 2 * q, 0);
    DivModUnique(2 * q, 2, q, 0);
  }

  lemma {:induction false} Pow2Add(a: nat, b: nat)
    ensures Pow2(a + b) == Pow2(a) * Pow2(b)
  {
    if a > 0 {
      Pow2Add(a - 1, b);
    }
  }

  lemma Pow2Sixteen()
    ensures Pow2(16) == 0x1_0000
  {
    assert Pow2(2) == 4;
    Pow2Add(2, 2);
    Pow2Add(4, 4);
    Pow2Add(8, 8);
  }

  /** One `iter1(N)` step with u = 2^N and root = 2p: the shifted trial
      value `try << N` is (p + u)^2 - p^2, below 2^32, and whether bit N is
      taken or not, the root invariant holds again for the next bit. */
  lemma SqrtStep(n: int, rem: int, p: nat, q: nat, u: nat)
    requires u >= 1 && p == q * (2 * u) && p + 2 * u <= 0x1_0000
    requires rem == n - p * p && rem >= 0 && n < (p + 2 * u) * (p + 2 * u)
    ensures var s := (2 * p + u) * u;
      && 0 <= s < U32_MODULUS
      && (rem >= s ==>
            && rem - s == n - (p + u) * (p + u)
            && p + u == (2 * q + 1) * u && p + u + u <= 0x1_0000
            && n < (p + u + u) * (p + u + u))
      && (rem < s ==>
            && p == (2 * q) * u && p + u <= 0x1_0000
            && n < (p + u) * (p + u))
  {
    var s := (2 * p + u) * u;
    var next := (p + u) * (p + u);
    SquareDifference(p, u);
    assert next - p * p == s;
    SquareGrows(p + u, 0x1_0000);
    assert next < U32_MODULUS;
    assert 0 <= s by {
      assert 0 <= p * p;
    }
    OddEvenMultiples(p, q, u);
  }

  /** With p = q * 2u, both p and p + u are multiples of u. */
  lemma OddEvenMultiples(p: nat, q: nat, u: nat)
    requires p == q * (2 * u)
    ensures p == (2 * q) * u && p + u == (2 * q + 1) * u
  {
    assert q * (2 * u) == (2 * q) * u;
  }

  /** `wdSqrt`: sixteen unrolled steps (bit 15 down to bit 0), each trying to
      add 2^N to the root; `root` holds twice the partial root, `n` the
      remainder. `try << N` and `|=` are written out as the uint32 operations
      they are. */
  method WdSqrt(n: uint32) returns (r: uint32)
    ensures r * r <= n < (r + 1) * (r + 1)
    ensures r == FloorSqrt(n)
    ensures r <= 0xFFFF
  {
    var rem: uint32 := n;
    var root: uint32 := 0;
    ghost var partial: nat := 0;
    ghost var q: nat := 0;
    ghost var unit: nat := 0x1_0000;
    var bit := 16;
    Pow2Sixteen();
    while bit > 0
      invariant 0 <= bit <= 16 && unit == Pow2(bit)
      invariant root == 2 * partial
      invariant partial == q * unit
      invariant partial + unit <= 0x1_0000
      invariant rem == n - partial * partial
      invariant n < (partial + unit) * (partial + unit)
    {
      var N := bit - 1;
      ghost var half := Pow2(N);
      assert unit == 2 * half;
      var try := root + Pow2(N);
      SqrtStep(n, rem, partial, q, half);
      var shifted: uint32 := Wrap32(try * Pow2(N));
      assert shifted == (2 * partial + half) * half;
      if rem >= shifted {
        rem := rem - shifted;
        SetClearBit(root, q, bit);
        root := SetBit(root, bit);
        partial := partial + half;
        q := 2 * q + 1;
      } else {
        q := 2 * q;
      }
      bit := N;
      unit := half;
    }
    r := root / 2;
    FloorSqrtUnique(n, r);
  }

  /** `(uint32_t) x * (uint32_t) x` for an `int16_t` x: the cast wraps a
      negative x to 2^32 + x and the product is taken modulo 2^32. */
  function SquareU32(x: int16): uint32
  {
    Mul32(Wrap32(x), Wrap32(x))
  }

  lemma SquareBound(a: int)
    requires 0 <= a <= 0x8000
    ensures a * a <= 0x4000_0000
  {
    if a < 0x8000 {
      SquareGrows(a, 0x8000);
    }
  }

  /** Squares of naturals order as their roots do. */
  lemma SquareBelow(a: nat, b: nat)
    requires a * a < b * b
    ensures a < b
  {
    if b <= a {
      if b < a {
        SquareGrows(b, a);
      }
    }
  }

  /** The wrapped square of an int16 is its exact square (at most 2^30). */
  lemma SquareU32Exact(x: int16)
    ensures SquareU32(x) == x * x
    ensures x * x <= 0x4000_0000
  {
    if x < 0 {
      SquareBound(-(x as int));
      var u := x + U32_MODULUS;
      assert Wrap32(x) == u;
      var k := U32_MODULUS + 2 * x;
      assert u * u == U32_MODULUS * k + x * x;
      DivModUnique(u * u, U32_MODULUS, k, x * x);
    } else {
      SquareBound(x);
    }
  }

  /** Reference magnitude: the floor of the Euclidean length. */
  function NormOf(x: int16, y: int16, z: int16): nat
  {
    FloorSqrt(x * x + y * y + z * z)
  }

  /** `norm`: the unsigned sum of the three wrapped squares cannot wrap
      (3 * 2^30 < 2^32), so the result is the floor of the vector's length,
      at most floor(sqrt(3) * 32768). */
  method Norm(x: int16, y: int16, z: int16) returns (r: uint32)
    ensures r * r <= x * x + y * y + z * z < (r + 1) * (r + 1)
    ensures r == NormOf(x, y, z)
    ensures r <= 56755
  {
    SquareU32Exact(x);
    SquareU32Exact(y);
    SquareU32Exact(z);
    var xx, yy, zz := SquareU32(x), SquareU32(y), SquareU32(z);
    var partialSum := Add32(xx, yy);
    assert partialSum == xx + yy;
    var sum := Add32(partialSum, zz);
    assert sum == xx + yy + zz;
    r := WdSqrt(sum);
    SquareBelow(r, 56756);
  }
}
