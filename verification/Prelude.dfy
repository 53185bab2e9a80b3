/** Values shared by the models. */
module Prelude {

  newtype Byte = x: int | 0 <= x < 256

  type Bytes = seq<Byte>

  const U32: nat := 0x1_0000_0000
  const U64: nat := 0x1_0000_0000_0000_0000

  datatype Option<+T> = None | Some(value: T)

  ghost predicate StrictlyIncreasing(s: seq<nat>) {
    forall i, j :: 0 <= i < j < |s| ==> s[i] < s[j]
  }

  function SaturatingSub(a: nat, b: nat): nat {
    if a >= b then a - b else 0
  }

  function Min(a: nat, b: nat): nat {
    if a <= b then a else b
  }

  predicate Distinct(s: seq<nat>) {
    forall i, j :: 0 <= i < j < |s| ==> s[i] != s[j]
  }

  lemma {:induction false} Pigeonhole(s: seq<nat>, n: nat)
    requires Distinct(s) && forall i :: 0 <= i < |s| ==> s[i] < n
    ensures |s| <= n
  {
    if s != [] {
      assert s[0] < n;
      if i :| 0 <= i < |s| && s[i] == n - 1 {
        Pigeonhole(s[..i] + s[i + 1..], n - 1);
      } else {
        Pigeonhole(s, n - 1);
      }
    }
  }

  /** A sum of losses is zero exactly if all of them are. */
  lemma {:induction false} SumIsZeroExactly(totals: seq<nat>, losses: seq<nat>, k: nat)
    requires k < |totals| == |losses| + 1 && totals[0] == 0
    requires forall i :: 0 <= i < |losses| ==> totals[i + 1] == totals[i] + losses[i]
    ensures totals[k] == 0 <==> forall i :: 0 <= i < k ==> losses[i] == 0
  {
    if k > 0 {
      SumIsZeroExactly(totals, losses, k - 1);
      assert totals[k - 1 + 1] == totals[k - 1] + losses[k - 1];
    }
  }
}
