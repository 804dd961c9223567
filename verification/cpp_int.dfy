/** Integer arithmetic as the C++ `int` operators used by the mixer perform it.

    Dafny's `/` and `%` on `int` are Euclidean (the remainder is never negative),
    whereas C++ `/` rounds the quotient toward zero.  `TruncDiv` is the C++
    operator, characterised by the rule of the C++ standard: the remainder
    `n - q * d` is smaller than the divisor in magnitude and never has the
    opposite sign to the dividend.
 */
module CppInt {

  const Int32Min: int := -0x8000_0000
  const Int32Max: int := 0x7FFF_FFFF

  /** True when `x` is representable as a 32-bit C++ `int`. */
  predicate InInt32(x: int) {
    Int32Min <= x <= Int32Max
  }

  /** The C++ `abs` on values that do not overflow. */
  function Abs(x: int): (r: nat)
    ensures r == x || r == -x
  {
    if x < 0 then -x else x
  }

  /** C++ `n / d` on `int`: the exact quotient rounded toward zero. */
  function TruncDiv(n: int, d: int): (q: int)
    requires d != 0
    ensures Abs(n - q * d) < Abs(d)
    ensures n - q * d == 0 || (n - q * d < 0 <==> n < 0)
  {
    if d > 0 then
      if n >= 0 then FloorStep(n, d); n / d
      else FloorStep(-n, d); -((-n) / d)
    else
      if n >= 0 then FloorStep(n, -d); -(n / -d)
      else FloorStep(-n, -d); (-n) / (-d)
  }

  /** Floor division of a natural number by a positive divisor leaves a
      remainder in `[0, d)`. */
  lemma FloorStep(n: int, d: int)
    requires n >= 0 && d > 0
    ensures 0 <= n - (n / d) * d < d
  {
  }

  lemma NegateFactor(a: int, b: int)
    ensures a * -b == -(a * b)
  {
  }

  /** The two clauses of `TruncDiv`'s contract determine the quotient: any `q`
      meeting them is the C++ quotient. */
  lemma TruncDivUnique(n: int, d: int, q: int)
    requires d != 0
    requires Abs(n - q * d) < Abs(d)
    requires n - q * d == 0 || (n - q * d < 0 <==> n < 0)
    ensures q == TruncDiv(n, d)
  {
    var t := TruncDiv(n, d);
    var r, s := n - q * d, n - t * d;
    // r and s lie in the same half-open interval of width |d|, so they differ
    // by less than |d|; yet they differ by a multiple of d.
    RemaindersClose(n, d, r, s);
    SubtractMultiples(t, q, d);
    if t != q {
      MultipleAtLeastDivisor(t - q, d);
      assert false;
    }
  }

  /** Two remainders for the same dividend, each below `|d|` in magnitude and
      each zero or of the dividend's sign, differ by less than `|d|`. */
  lemma RemaindersClose(n: int, d: int, r: int, s: int)
    requires d != 0
    requires Abs(r) < Abs(d) && (r == 0 || (r < 0 <==> n < 0))
    requires Abs(s) < Abs(d) && (s == 0 || (s < 0 <==> n < 0))
    ensures Abs(r - s) < Abs(d)
  {
  }

  lemma SubtractMultiples(a: int, b: int, d: int)
    ensures a * d - b * d == (a - b) * d
  {
  }

  /** A non-zero multiple of `d` is at least `d` in magnitude. */
  lemma MultipleAtLeastDivisor(k: int, d: int)
    requires k != 0
    ensures Abs(k * d) >= Abs(d)
  {
    var kk, dd := Abs(k), Abs(d);
    ProductOfMagnitudes(k, d);
    AtLeastOneFactor(kk, dd);
  }

  lemma ProductOfMagnitudes(k: int, d: int)
    ensures Abs(k * d) == Abs(k) * Abs(d)
  {
    if k < 0 { NegateFactor(d, -k); }
    if d < 0 { NegateFactor(k, -d); }
    if k < 0 && d < 0 { NegateFactor(-k, -d); NegateFactor(-d, -k); }
  }

  lemma {:induction false} AtLeastOneFactor(k: nat, d: nat)
    requires k >= 1
    ensures k * d >= d
  {
    if k > 1 {
      AtLeastOneFactor(k - 1, d);
      assert k * d == (k - 1) * d + d;
    }
  }

  /** For a positive divisor the C++ quotient agrees with Dafny's floor
      quotient except for a negative dividend that `d` does not divide, where
      it is one larger. */
  lemma TruncDivVersusFloor(n: int, d: int)
    requires d > 0
    ensures TruncDiv(n, d) == if n >= 0 || n % d == 0 then n / d else n / d + 1
  {
    var q := if n >= 0 || n % d == 0 then n / d else n / d + 1;
    assert n - q * d == (if n >= 0 || n % d == 0 then n % d else n % d - d);
    TruncDivUnique(n, d, q);
  }

  /** Exact division: a multiple of `d` divided by `d` gives the factor back. */
  lemma TruncDivExact(k: int, d: int)
    requires d != 0
    ensures TruncDiv(k * d, d) == k
  {
    TruncDivUnique(k * d, d, k);
  }
}
