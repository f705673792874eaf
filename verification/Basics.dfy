/** Shared vocabulary: optional values, powers of two, and facts about division. */
module Basics {

  datatype Option<+T> = None | Some(value: T)

  function Min(a: int, b: int): int { if a < b then a else b }

  function Pow2(n: nat): (r: nat)
    ensures r >= 1
  {
    if n == 0 then 1 else 2 * Pow2(n - 1)
  }

  lemma {:induction false} Pow2Add(m: nat, n: nat)
    ensures Pow2(m + n) == Pow2(m) * Pow2(n)
  {
    if m > 0 {
      Pow2Add(m - 1, n);
      assert Pow2(m + n) == 2 * Pow2(m - 1 + n);
      assert 2 * (Pow2(m - 1) * Pow2(n)) == (2 * Pow2(m - 1)) * Pow2(n);
    }
  }

  lemma QuotientUnique(a: int, d: int, q: int, r: int)
    requires d > 0 && a == q * d + r && 0 <= r < d
    ensures a / d == q && a % d == r
  {
    var q' := a / d;
    var e := q - q';
    assert e * d == a % d - r by {
      assert a == q' * d + a % d;
      assert e * d == q * d - q' * d;
    }
    assert -d < e * d < d;
    MultipleBelow(e, d);
  }

  lemma MultipleBelow(e: int, d: int)
    requires d > 0 && -d < e * d < d
    ensures e == 0
  {
    MulAtLeast(if e >= 1 then e else 1, d);
    MulAtLeast(if e <= -1 then -e else 1, d);
  }

  lemma MulAtLeast(e: int, d: int)
    requires e >= 1 && d > 0
    ensures e * d >= d && (-e) * d <= -d
  {
    assert (e - 1) * d >= 0;
  }
}
