/** Fixed-width C integer types of the Pebble firmware and the wrap-around
    arithmetic the C code performs on them, written out explicitly. */
module Machine {

  const U32_MODULUS: int := 0x1_0000_0000
  const U16_MODULUS: int := 0x1_0000

  type uint8 = x: int | 0 <= x < 0x100
  type uint16 = x: int | 0 <= x < 0x1_0000
  type int16 = x: int | -0x8000 <= x < 0x8000
  type uint32 = x: int | 0 <= x < 0x1_0000_0000
  type int32 = x: int | -0x8000_0000 <= x < 0x8000_0000

  /** The value a mathematical integer takes once stored in a `uint32_t`. */
  function Wrap32(x: int): (r: uint32)
    ensures 0 <= x < U32_MODULUS ==> r == x
  {
    x % U32_MODULUS
  }

  /** A positive number times a factor of at least one is no smaller. */
  lemma MulAtLeast(m: int, d: int)
    requires m > 0 && d >= 1
    ensures m * d >= m
  {
  }

  /** Euclidean division is determined by its quotient-remainder decomposition. */
  lemma DivModUnique(p: int, m: int, q: int, r: int)
    requires m > 0 && p == m * q + r && 0 <= r < m
    ensures p / m == q && p % m == r
  {
    var d := p / m - q;
    if d >= 1 {
      MulAtLeast(m, d);
    } else if d <= -1 {
      MulAtLeast(m, -d);
    }
  }

  /** Wrapping an intermediate sum early does not change the wrapped total. */
  lemma WrapAdd(x: int, y: int)
    ensures Wrap32(Wrap32(x) + y) == Wrap32(x + y)
  {
    var m := U32_MODULUS;
    var z := x + y;
    assert x == m * (x / m) + x % m;
    assert z == m * (z / m) + z % m;
    assert Wrap32(x) + y == m * (z / m - x / m) + z % m;
    DivModUnique(Wrap32(x) + y, m, z / m - x / m, z % m);
  }

  function Add32(a: uint32, b: uint32): uint32 { Wrap32(a + b) }
  function Sub32(a: uint32, b: uint32): uint32 { Wrap32(a - b) }
  function Mul32(a: uint32, b: uint32): uint32 { Wrap32(a * b) }

  /** Subtracting what was added gives back the original value, wrap-around or not. */
  lemma AddSubCancel(a: uint32, e: uint32)
    ensures Sub32(Add32(a, e), e) == a
  {
    var s := a + e;
    if s >= U32_MODULUS {
      assert Add32(a, e) == s - U32_MODULUS;
      assert Add32(a, e) - e == a - U32_MODULUS;
    }
  }

  /** Adding a difference back restores the value, wrap-around or not. */
  lemma SubAddCancel(a: uint32, b: uint32)
    ensures Add32(b, Sub32(a, b)) == a
  {
    if a < b {
      assert Sub32(a, b) == a - b + U32_MODULUS;
    }
  }

  /** The difference of a sum and one of its summands is the other one. */
  lemma AddDifference(a: uint32, e: uint32)
    ensures Sub32(Add32(a, e), a) == e
  {
    if a + e >= U32_MODULUS {
      assert Add32(a, e) == a + e - U32_MODULUS;
    }
  }

  /** `(uint16_t) v`: C conversion to an unsigned type keeps the value modulo 2^16. */
  function ToU16(x: int): (r: uint16)
    ensures (r - x) % U16_MODULUS == 0
    ensures 0 <= x < U16_MODULUS ==> r == x
  {
    x % U16_MODULUS
  }

  /** `(int32_t) u` for a `uint32_t` u, as the ARM compiler performs it
      (two's complement reinterpretation). */
  function I32OfU32(u: uint32): int32 {
    if u < 0x8000_0000 then u else u - U32_MODULUS
  }

  /** `(uint32_t) i` for an `int32_t` i. */
  function U32OfI32(i: int32): uint32 {
    Wrap32(i)
  }

  /** Storing a `uint32_t` through an `int32_t` slot and reading it back is lossless. */
  lemma U32RoundTrip(u: uint32)
    ensures U32OfI32(I32OfU32(u)) == u
  {
    if u >= 0x8000_0000 {
      assert I32OfU32(u) + U32_MODULUS == u;
    }
  }

  /** The four bytes of a `uint32_t` in little-endian (ARM host) order, as memcpy copies them. */
  function LittleEndian32(u: uint32): (b: seq<uint8>)
    ensures |b| == 4
  {
    [u % 0x100, (u / 0x100) % 0x100, (u / 0x1_0000) % 0x100, u / 0x100_0000]
  }

  /** Reads back a little-endian `uint32_t` from four bytes. */
  function FromLittleEndian32(b: seq<uint8>): uint32
    requires |b| == 4
  {
    b[0] as int + 0x100 * (b[1] as int) + 0x1_0000 * (b[2] as int) + 0x100_0000 * (b[3] as int)
  }

  lemma LittleEndian32RoundTrip(u: uint32)
    ensures FromLittleEndian32(LittleEndian32(u)) == u
  {
    var b := LittleEndian32(u);
    assert u == u % 0x100 + 0x100 * (u / 0x100);
    assert u / 0x100 == (u / 0x100) % 0x100 + 0x100 * (u / 0x1_0000);
    assert u / 0x1_0000 == (u / 0x1_0000) % 0x100 + 0x100 * (u / 0x100_0000);
  }
}
