/**
 * The hand-written `GetHashCode` pattern shared by BlendSettings,
 * StencilSettings, PushConstantBinding and EntityComponentBinding:
 * start at 17 and, for each field in turn, `hash = hash * 31 + field`,
 * in unchecked 32-bit arithmetic.
 */
module Hashing {
  import opened Numeric

  /** The fold as the C# code computes it: wrapping after every step. */
  function HashFold(fields: seq<int>): (h: Int32)
    decreases |fields|
  {
    if |fields| == 0 then 17
    else Wrap(HashFold(fields[..|fields| - 1]) * 31 + fields[|fields| - 1])
  }

  /** The same fold over unbounded integers: 17 * 31^n + sum of field_i * 31^(n-1-i). */
  function Polynomial(fields: seq<int>): int
    decreases |fields|
  {
    if |fields| == 0 then 17
    else Polynomial(fields[..|fields| - 1]) * 31 + fields[|fields| - 1]
  }

  function Pow31(k: nat): int
  {
    if k == 0 then 1 else 31 * Pow31(k - 1)
  }

  /** The step-wise wrapping fold is the polynomial reduced once, modulo 2^32. */
  lemma {:induction false} HashFoldIsPolynomial(fields: seq<int>)
    ensures HashFold(fields) == Wrap(Polynomial(fields))
    decreases |fields|
  {
    if |fields| > 0 {
      var prefix, last := fields[..|fields| - 1], fields[|fields| - 1];
      HashFoldIsPolynomial(prefix);
      WrapMulAdd(Polynomial(prefix), 31, last);
    }
  }

  /** Changing one field by `d` changes the polynomial by `d` times a power of 31. */
  lemma {:induction false} PolynomialDifference(xs: seq<int>, ys: seq<int>, j: nat)
    requires |xs| == |ys| && j < |xs|
    requires forall i :: 0 <= i < |xs| && i != j ==> xs[i] == ys[i]
    ensures Polynomial(ys) - Polynomial(xs) == Pow31(|xs| - 1 - j) * (ys[j] - xs[j])
    decreases |xs|
  {
    var n := |xs|;
    var xp, yp := xs[..n - 1], ys[..n - 1];
    if j == n - 1 {
      assert xp == yp;
    } else {
      PolynomialDifference(xp, yp, j);
      var d := ys[j] - xs[j];
      calc {
        Polynomial(ys) - Polynomial(xs);
        (Polynomial(yp) - Polynomial(xp)) * 31;
        (Pow31(n - 2 - j) * d) * 31;
        (31 * Pow31(n - 2 - j)) * d;
      }
    }
  }

  /** 31 is invertible modulo 2^32 (3186588639 * 31 == 1 + 23 * 2^32), so multiplying by 31 loses nothing. */
  lemma ThirtyOneCancels(x: int)
    requires (31 * x) % TWO_32 == 0
    ensures x % TWO_32 == 0
  {
    var t := (31 * x) / TWO_32;
    assert 31 * x == TWO_32 * t;
    assert x == TWO_32 * (3186588639 * t - 23 * x);
  }

  /** Hence no power of 31 can make a nonzero difference vanish modulo 2^32. */
  lemma {:induction false} Pow31Cancels(k: nat, d: int)
    requires (Pow31(k) * d) % TWO_32 == 0
    ensures d % TWO_32 == 0
    decreases k
  {
    if k > 0 {
      assert Pow31(k) * d == 31 * (Pow31(k - 1) * d);
      ThirtyOneCancels(Pow31(k - 1) * d);
      Pow31Cancels(k - 1, d);
    }
  }

  /** Values a nonzero multiple of a power of 31 apart never wrap to the same `int`. */
  lemma WrapSeparates(p: int, q: int, k: nat, d: int)
    requires q - p == Pow31(k) * d
    requires d % TWO_32 != 0
    ensures Wrap(p) != Wrap(q)
  {
    if (Pow31(k) * d) % TWO_32 == 0 {
      Pow31Cancels(k, d);
    }
    WrapEqual(q, p);
  }

  /**
   * The hash sees every field: two field lists that differ in one position,
   * by an amount that is not a multiple of 2^32, never hash alike.
   */
  lemma HashFoldSeesEveryField(xs: seq<int>, ys: seq<int>, j: nat)
    requires |xs| == |ys| && j < |xs|
    requires forall i :: 0 <= i < |xs| && i != j ==> xs[i] == ys[i]
    requires (ys[j] - xs[j]) % TWO_32 != 0
    ensures HashFold(xs) != HashFold(ys)
  {
    HashFoldIsPolynomial(xs);
    HashFoldIsPolynomial(ys);
    PolynomialDifference(xs, ys, j);
    WrapSeparates(Polynomial(xs), Polynomial(ys), |xs| - 1 - j, ys[j] - xs[j]);
  }
}
