/** Sizes of sets that grow number by number. */
module Counting {

  lemma CountNext(a: set<nat>, b: set<nat>, n: nat, hit: bool)
    requires n !in a && forall j :: j in b <==> j in a || (hit && j == n)
    ensures |b| == |a| + if hit then 1 else 0
  {
    if hit {
      assert b == a + {n};
    } else {
      assert b == a;
    }
  }
}
