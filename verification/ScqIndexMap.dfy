/** Placement of ring tickets on cache lines (the ring index map of the SCQ). */
module ScqIndexMap {
  import opened Bits

  /** log2 of the number of ring entries on one cache line. */
  const LFRING_MIN := 3

  function Residue(a: nat, d: nat): nat
    requires d > 0
  {
    a % d
  }

  function RingSize(order: nat): (n: nat)
    ensures n >= 2
  {
    Pow2(order + 1)
  }

  function LfringMap(idx: nat, order: nat): nat
  {
    var n := RingSize(order);
    var fullOrder := order + 1;
    if fullOrder <= LFRING_MIN then
      And(idx, n - 1)
    else
      Or(Shr(And(idx, n - 1), fullOrder - LFRING_MIN), And(Shl(idx, LFRING_MIN), n - 1))
  }

  /** The residue `r` of `x` modulo `8 * m` in terms of its three top bits and the rest. */
  lemma SplitResidue(x: nat, m: nat, n: nat, q: nat, r: nat) returns (top: nat, rest: nat)
    requires m >= 1 && n == 8 * m && x == q * n + r && r < n
    ensures top < 8 && r == top * m + rest && rest < m
    ensures rest == x % m
    ensures (8 * x) % n == 8 * rest
  {
    top, rest := SplitTop(r, m);
    Recombine(x, m, n, q, top, rest);
  }

  lemma SplitTop(r: nat, m: nat) returns (top: nat, rest: nat)
    requires r < 8 * m
    ensures top < 8 && rest < m && r == top * m + rest
  {
    top, rest := r / m, r % m;
    DivModSplit(r, m);
    MulLt(top, 8, m);
  }

  lemma MulLt(a: nat, b: nat, m: nat)
    requires a * m < b * m
    ensures a < b
  {
  }

  lemma Recombine(x: nat, m: nat, n: nat, q: nat, top: nat, rest: nat)
    requires n == 8 * m && x == q * n + (top * m + rest) && rest < m
    ensures x % m == rest
    ensures (8 * x) % n == 8 * rest
  {
    var p := 8 * q + top;
    assert q * n == (8 * q) * m;
    assert x == p * m + rest;
    DivModUnique(x, m, p, rest);
    EightFold(x, m, p, rest);
  }

  lemma EightFold(x: nat, m: nat, q: nat, r: nat)
    requires x == q * m + r && r < m
    ensures (8 * x) % (8 * m) == 8 * r
  {
    assert 8 * x == q * (8 * m) + 8 * r;
    DivModUnique(8 * x, 8 * m, q, 8 * r);
  }

  lemma ShlThree(idx: nat)
    ensures Shl(idx, 3) == 8 * idx
  {
  }

  lemma LfringMapBits(idx: nat, order: nat, m: nat, n: nat)
    requires order + 1 > LFRING_MIN && m == Pow2(order - 2) && n == RingSize(order)
    ensures LfringMap(idx, order) == Or(Quotient(Residue(idx, n), m), Residue(8 * idx, n))
  {
    MaskBits(idx, order, n);
    MaskBits(Shl(idx, 3), order, n);
    ShlThree(idx);
  }

  lemma MaskBits(x: nat, order: nat, n: nat)
    requires n == RingSize(order)
    ensures And(x, n - 1) == Residue(x, n)
  {
    AndMask(x, order + 1);
  }

  lemma RotationValue(idx: nat, m: nat, n: nat) returns (top: nat, rest: nat)
    requires m >= 1 && n == 8 * m
    ensures top < 8 && rest < m && Residue(idx, n) == top * m + rest
    ensures Quotient(Residue(idx, n), m) == top && Residue(8 * idx, n) == 8 * rest
  {
    var q, r := Quotient(idx, n), Residue(idx, n);
    assert idx == q * n + r && r < n by { DivModSplit(idx, n); }
    top, rest := SplitResidue(idx, m, n, q, r);
    assert Quotient(r, m) == top by { DivModUnique(r, m, top, rest); }
  }

  /** The rotation in arithmetic: the three top bits of the residue become the three lowest. */
  lemma LfringMapValue(idx: nat, order: nat, m: nat, n: nat) returns (top: nat, rest: nat)
    requires order + 1 > LFRING_MIN && m == Pow2(order - 2) && n == RingSize(order)
    ensures n == 8 * m && top < 8 && rest < m
    ensures idx % n == top * m + rest
    ensures LfringMap(idx, order) == top + 8 * rest
  {
    EightTimes(order);
    LfringMapBits(idx, order, m, n);
    top, rest := RotationValue(idx, m, n);
    JoinLowBits(top, rest);
  }

  lemma JoinLowBits(top: nat, rest: nat)
    requires top < 8
    ensures Or(top, 8 * rest) == top + 8 * rest
  {
    assert Pow2(3) == 8;
    OrDisjoint(top, 8 * rest, 3);
  }

  lemma EightTimes(order: nat)
    requires order + 1 > LFRING_MIN
    ensures RingSize(order) == 8 * Pow2(order - 2)
  {
    Pow2Add(3, order - 2);
    assert Pow2(3) == 8;
  }

  /** Digits in two orders tell the same pairs apart. */
  lemma DigitsAgree(topA: nat, restA: nat, topB: nat, restB: nat, m: nat)
    requires topA < 8 && topB < 8 && restA < m && restB < m
    ensures topA + 8 * restA == topB + 8 * restB <==> topA * m + restA == topB * m + restB
  {
    if topA * m + restA == topB * m + restB {
      DivModUnique(topA * m + restA, m, topA, restA);
      DivModUnique(topA * m + restA, m, topB, restB);
    } else {
      assert topA != topB || restA != restB;
    }
  }

  /** Tickets share an entry exactly when they are congruent modulo the ring size. */
  lemma LfringMapCongruent(a: nat, b: nat, order: nat)
    ensures LfringMap(a, order) < RingSize(order)
    ensures LfringMap(a, order) == LfringMap(b, order) <==> a % RingSize(order) == b % RingSize(order)
  {
    if order + 1 <= LFRING_MIN {
      AndMask(a, order + 1);
      AndMask(b, order + 1);
    } else {
      var m, n := Pow2(order - 2), RingSize(order);
      var topA, restA := LfringMapValue(a, order, m, n);
      var topB, restB := LfringMapValue(b, order, m, n);
      DigitsAgree(topA, restA, topB, restB, m);
    }
  }

  lemma Below(top: nat, rest: nat, m: nat)
    requires top < 8 && rest < m
    ensures top * m + rest < 8 * m
  {
  }

  /** The rotation is a permutation: every entry is reached by some residue. */
  lemma LfringMapOnto(p: nat, order: nat) returns (idx: nat)
    requires p < RingSize(order)
    ensures idx < RingSize(order) && LfringMap(idx, order) == p
  {
    if order + 1 <= LFRING_MIN {
      idx := p;
      AndMask(p, order + 1);
    } else {
      var m, n := Pow2(order - 2), RingSize(order);
      EightTimes(order);
      idx := (p % 8) * m + p / 8;
      Below(p % 8, p / 8, m);
      var top, rest := LfringMapValue(idx, order, m, n);
      DivModUnique(idx, n, 0, idx);
      DivModUnique(idx, m, p % 8, p / 8);
      DivModUnique(idx, m, top, rest);
    }
  }
}
