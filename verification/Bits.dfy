/** Machine-word operations on unbounded naturals, bit by bit. */
module Bits {

  function Pow2(k: nat): (p: nat)
    ensures p >= 1
  {
    if k == 0 then 1 else 2 * Pow2(k - 1)
  }

  function And(a: nat, b: nat): nat
  {
    if a == 0 || b == 0 then 0
    else (if a % 2 == 1 && b % 2 == 1 then 1 else 0) + 2 * And(a / 2, b / 2)
  }

  function Or(a: nat, b: nat): nat
    decreases a + b
  {
    if a == 0 then b
    else if b == 0 then a
    else (if a % 2 == 1 || b % 2 == 1 then 1 else 0) + 2 * Or(a / 2, b / 2)
  }

  function Shl(a: nat, k: nat): nat
  {
    a * Pow2(k)
  }

  function Quotient(a: nat, d: nat): nat
    requires d > 0
  {
    a / d
  }

  function Shr(a: nat, k: nat): nat
  {
    Quotient(a, Pow2(k))
  }

  lemma {:induction false} Pow2Add(j: nat, k: nat)
    ensures Pow2(j + k) == Pow2(j) * Pow2(k)
  {
    if j > 0 {
      Pow2Add(j - 1, k);
      assert Pow2(j + k) == 2 * (Pow2(j - 1) * Pow2(k));
    }
  }

  /** Halving commutes with reduction modulo an even number. */
  lemma HalfMod(x: nat, m: nat)
    requires m >= 1
    ensures x % (2 * m) == x % 2 + 2 * ((x / 2) % m)
  {
    var q, r := (x / 2) / m, (x / 2) % m;
    assert x / 2 == q * m + r;
    assert x == q * (2 * m) + (2 * r + x % 2);
    DivModUnique(x, 2 * m, q, 2 * r + x % 2);
  }

  lemma DivModUnique(x: nat, d: nat, q: nat, r: nat)
    requires x == q * d + r && r < d
    ensures x / d == q && x % d == r
  {
    var q', r' := x / d, x % d;
    assert (q' - q) * d == r - r';
    MultipleBetween(q' - q, d);
  }

  lemma DivModSplit(x: nat, d: nat)
    requires d > 0
    ensures x == (x / d) * d + x % d && x % d < d
  {
  }

  lemma MultipleBetween(k: int, d: int)
    requires d >= 0
    ensures -d < k * d < d ==> k == 0
  {
  }

  /** Masking with `2^k - 1` is reduction modulo `2^k`. */
  lemma {:induction false} AndMask(x: nat, k: nat)
    ensures And(x, Pow2(k) - 1) == x % Pow2(k)
  {
    if k > 0 {
      AndMask(x / 2, k - 1);
      HalfMod(x, Pow2(k - 1));
      assert (Pow2(k) - 1) / 2 == Pow2(k - 1) - 1;
    } else {
      assert x % 1 == 0;
    }
  }

  /** Words whose set bits do not overlap are joined by addition. */
  lemma {:induction false} OrDisjoint(a: nat, b: nat, k: nat)
    requires a < Pow2(k) && b % Pow2(k) == 0
    ensures Or(a, b) == a + b
    decreases k
  {
    if k > 0 && a > 0 && b > 0 {
      HalfMod(b, Pow2(k - 1));
      OrDisjoint(a / 2, b / 2, k - 1);
    }
  }

  /** Congruent naturals compare as their quotients do. */
  lemma CongruentOrder(a: nat, b: nat, n: nat)
    requires n > 0 && a % n == b % n
    ensures a < b <==> a / n < b / n
    ensures a == b <==> a / n == b / n
  {
  }
}
