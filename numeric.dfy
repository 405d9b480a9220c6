/**
 * Fixed-width integers of the C# runtime, written out over Dafny's unbounded
 * `int`: the ranges of `sbyte`, `int` and `uint`, and the unchecked
 * (wrapping) arithmetic that C# uses by default.
 */
module Numeric {

  const TWO_32: int := 0x1_0000_0000
  const TWO_31: int := 0x8000_0000

  /** C# `byte`. */
  type Byte = x: int | 0 <= x < 256

  /** C# `sbyte`. */
  type Int8 = x: int | -128 <= x < 128

  /** C# `int`. */
  type Int32 = x: int | -0x8000_0000 <= x < 0x8000_0000

  /** C# `uint`. */
  type UInt32 = x: int | 0 <= x < 0x1_0000_0000

  /** The `int` that unchecked C# arithmetic produces for the exact result `x`. */
  function Wrap(x: int): (r: Int32)
    ensures (r - x) % TWO_32 == 0
    ensures -TWO_31 <= x < TWO_31 ==> r == x
  {
    (x + TWO_31) % TWO_32 - TWO_31
  }

  /** The `uint` that unchecked C# arithmetic produces for the exact result `x`. */
  function WrapU(x: int): (r: UInt32)
    ensures (r - x) % TWO_32 == 0
    ensures 0 <= x < TWO_32 ==> r == x
  {
    x % TWO_32
  }

  /** `(int)u`: the same 32 bits read as a signed value. */
  function AsInt32(u: UInt32): (r: Int32)
    ensures (r - u) % TWO_32 == 0
  {
    Wrap(u)
  }

  /** `v + 1` on a `uint`, as `version++` computes it. */
  function Increment(v: UInt32): (r: UInt32)
    ensures r != v
    ensures r == if v == TWO_32 - 1 then 0 else v + 1
  {
    WrapU(v + 1)
  }

  /** Adding a multiple of 2^32 does not change what `Wrap` produces. */
  lemma WrapShift(x: int, k: int)
    ensures Wrap(x + k * TWO_32) == Wrap(x)
  {
    assert (x + k * TWO_32 + TWO_31) % TWO_32 == (x + TWO_31) % TWO_32;
  }

  /** Two exact results wrap to the same `int` exactly when they agree modulo 2^32. */
  lemma WrapEqual(a: int, b: int)
    ensures Wrap(a) == Wrap(b) <==> (a - b) % TWO_32 == 0
  {
    var k := (a - b) / TWO_32;
    if (a - b) % TWO_32 == 0 {
      assert a == b + k * TWO_32;
      WrapShift(b, k);
    }
  }

  /** Wrapping an intermediate result and wrapping only at the end agree. */
  lemma WrapMulAdd(a: int, m: int, c: int)
    ensures Wrap(Wrap(a) * m + c) == Wrap(a * m + c)
  {
    var k := (Wrap(a) - a) / TWO_32;
    assert Wrap(a) == a + k * TWO_32;
    assert Wrap(a) * m + c == a * m + c + (k * m) * TWO_32;
    WrapShift(a * m + c, k * m);
  }

  /** Adding to a wrapped sum and wrapping again is wrapping the exact sum. */
  lemma WrapAdd(a: int, c: int)
    ensures Wrap(Wrap(a) + c) == Wrap(a + c)
  {
    var k := (Wrap(a) - a) / TWO_32;
    assert Wrap(a) + c == a + c + k * TWO_32;
    WrapShift(a + c, k);
  }

  /** The same for `uint`: wrapping an intermediate sum loses nothing. */
  lemma WrapUAdd(a: int, c: int)
    ensures WrapU(WrapU(a) + c) == WrapU(a + c)
  {
    var k := (WrapU(a) - a) / TWO_32;
    assert WrapU(a) + c == a + c + k * TWO_32;
  }

  /** Different 32-bit values stay different after any reinterpretation modulo 2^32. */
  lemma DistinctInt32(x: Int32, y: Int32)
    requires x != y
    ensures (x - y) % TWO_32 != 0
  {
  }

  /** `(int)` keeps different `uint` values apart. */
  lemma DistinctAsInt32(u: UInt32, v: UInt32)
    requires u != v
    ensures (AsInt32(u) - AsInt32(v)) % TWO_32 != 0
  {
    var a, b := AsInt32(u), AsInt32(v);
    assert (a - u) % TWO_32 == 0 && (b - v) % TWO_32 == 0;
    var ka, kb := (a - u) / TWO_32, (b - v) / TWO_32;
    assert a - b == (u - v) + (ka - kb) * TWO_32;
  }

  /** Bitwise or of two non-negative integers, bit by bit from the lowest. */
  function BitOr(a: nat, b: nat): nat
    decreases a + b
  {
    if a == 0 then b
    else if b == 0 then a
    else 2 * BitOr(a / 2, b / 2) + (if a % 2 == 1 || b % 2 == 1 then 1 else 0)
  }

  /** Or-ing with an even number: the lowest bit comes from the other operand alone. */
  lemma BitOrEven(x: nat, y: nat)
    ensures BitOr(2 * x, y) == 2 * BitOr(x, y / 2) + y % 2
  {
  }

  /** Bits below a multiple of 16 do not overlap it, so or is addition there. */
  lemma {:induction false} BitOrDisjoint(a: nat, b: nat, m: nat)
    requires m == 1 || m == 2 || m == 4 || m == 8 || m == 16
    requires b < m
    ensures BitOr(a * m, b) == a * m + b
    decreases m
  {
    if m == 1 {
      assert b == 0;
    } else {
      var h := m / 2;
      assert a * m == 2 * (a * h);
      BitOrEven(a * h, b);
      BitOrDisjoint(a, b / 2, h);
    }
  }
}
