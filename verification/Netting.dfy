/** Gridlock netting on plain numbers: balances after a set of queued payments settles at
    once, and the rule that shrinks the set until nobody is overdrawn. */
module Netting {

  datatype Payment = Payment(src: nat, dest: nat, amt: nat)

  predicate InRange(q: seq<Payment>, n: nat) {
    forall k :: 0 <= k < |q| ==> q[k].src < n && q[k].dest < n
  }

  /** What bank i pays among the first k payments, when those in sel are settled. */
  function Paid(q: seq<Payment>, sel: seq<bool>, i: nat, k: nat): (r: nat)
    requires k <= |q| == |sel|
  {
    if k == 0 then 0 else Paid(q, sel, i, k - 1) + if q[k - 1].src == i && sel[k - 1] then q[k - 1].amt else 0
  }

  function Got(q: seq<Payment>, sel: seq<bool>, i: nat, k: nat): (r: nat)
    requires k <= |q| == |sel|
  {
    if k == 0 then 0 else Got(q, sel, i, k - 1) + if q[k - 1].dest == i && sel[k - 1] then q[k - 1].amt else 0
  }

  function Balance(bal: seq<int>, q: seq<Payment>, sel: seq<bool>, i: nat): int
    requires |q| == |sel| && i < |bal|
  {
    bal[i] - Paid(q, sel, i, |q|) + Got(q, sel, i, |q|)
  }

  lemma {:induction false} PaidOneMore(q: seq<Payment>, sel: seq<bool>, k: nat, i: nat, n: nat)
    requires |q| == |sel| && k < |q| && !sel[k] && n <= |q|
    ensures Paid(q, sel[k := true], i, n) == Paid(q, sel, i, n) + if k < n && q[k].src == i then q[k].amt else 0
    ensures Got(q, sel[k := true], i, n) == Got(q, sel, i, n) + if k < n && q[k].dest == i then q[k].amt else 0
  {
    if n > 0 {
      PaidOneMore(q, sel, k, i, n - 1);
    }
  }

  /** Settling one more payment moves its amount from its source to its destination. */
  lemma SettlesOne(bal: seq<int>, q: seq<Payment>, sel: seq<bool>, k: nat, i: nat)
    requires |q| == |sel| && k < |q| && !sel[k] && i < |bal|
    ensures Balance(bal, q, sel[k := true], i)
         == Balance(bal, q, sel, i) - (if q[k].src == i then q[k].amt else 0) + (if q[k].dest == i then q[k].amt else 0)
  {
    PaidOneMore(q, sel, k, i, |q|);
  }

  lemma {:induction false} NonePaid(q: seq<Payment>, sel: seq<bool>, i: nat, n: nat)
    requires |q| == |sel| && n <= |q| && forall k :: 0 <= k < |sel| ==> !sel[k]
    ensures Paid(q, sel, i, n) == 0 == Got(q, sel, i, n)
  {
    if n > 0 {
      NonePaid(q, sel, i, n - 1);
    }
  }

  /** Before anything is settled the balances are those given. */
  lemma SettlesNone(bal: seq<int>, q: seq<Payment>, sel: seq<bool>, i: nat)
    requires |q| == |sel| && i < |bal| && forall k :: 0 <= k < |sel| ==> !sel[k]
    ensures Balance(bal, q, sel, i) == bal[i]
  {
    NonePaid(q, sel, i, |q|);
  }

  // ---- conservation ------------------------------------------------------------------------------

  function TotalStart(bal: seq<int>, n: nat): int
    requires n <= |bal|
  {
    if n == 0 then 0 else TotalStart(bal, n - 1) + bal[n - 1]
  }

  function TotalBalance(bal: seq<int>, q: seq<Payment>, sel: seq<bool>, n: nat): int
    requires |q| == |sel| && n <= |bal|
  {
    if n == 0 then 0 else TotalBalance(bal, q, sel, n - 1) + Balance(bal, q, sel, n - 1)
  }

  function TotalPaid(q: seq<Payment>, sel: seq<bool>, n: nat, k: nat): int
    requires k <= |q| == |sel|
  {
    if n == 0 then 0 else TotalPaid(q, sel, n - 1, k) + Paid(q, sel, n - 1, k)
  }

  function TotalGot(q: seq<Payment>, sel: seq<bool>, n: nat, k: nat): int
    requires k <= |q| == |sel|
  {
    if n == 0 then 0 else TotalGot(q, sel, n - 1, k) + Got(q, sel, n - 1, k)
  }

  lemma {:induction false} TotalPaidStep(q: seq<Payment>, sel: seq<bool>, n: nat, k: nat)
    requires 0 < k <= |q| == |sel|
    ensures TotalPaid(q, sel, n, k)
         == TotalPaid(q, sel, n, k - 1) + if q[k - 1].src < n && sel[k - 1] then q[k - 1].amt else 0
  {
    if n > 0 {
      TotalPaidStep(q, sel, n - 1, k);
    }
  }

  lemma {:induction false} TotalGotStep(q: seq<Payment>, sel: seq<bool>, n: nat, k: nat)
    requires 0 < k <= |q| == |sel|
    ensures TotalGot(q, sel, n, k)
         == TotalGot(q, sel, n, k - 1) + if q[k - 1].dest < n && sel[k - 1] then q[k - 1].amt else 0
  {
    if n > 0 {
      TotalGotStep(q, sel, n - 1, k);
    }
  }

  lemma {:induction false} NothingYet(q: seq<Payment>, sel: seq<bool>, n: nat)
    requires |q| == |sel|
    ensures TotalPaid(q, sel, n, 0) == 0 == TotalGot(q, sel, n, 0)
  {
    if n > 0 {
      NothingYet(q, sel, n - 1);
    }
  }

  /** Every settled amount is paid once and received once. */
  lemma {:induction false} PaidIsGot(q: seq<Payment>, sel: seq<bool>, n: nat, k: nat)
    requires InRange(q, n) && k <= |q| == |sel|
    ensures TotalPaid(q, sel, n, k) == TotalGot(q, sel, n, k)
  {
    if k == 0 {
      NothingYet(q, sel, n);
    } else {
      PaidIsGot(q, sel, n, k - 1);
      TotalPaidStep(q, sel, n, k);
      TotalGotStep(q, sel, n, k);
    }
  }

  lemma {:induction false} TotalSplits(bal: seq<int>, q: seq<Payment>, sel: seq<bool>, n: nat)
    requires |q| == |sel| && n <= |bal|
    ensures TotalBalance(bal, q, sel, n)
         == TotalStart(bal, n) - TotalPaid(q, sel, n, |q|) + TotalGot(q, sel, n, |q|)
  {
    if n > 0 {
      TotalSplits(bal, q, sel, n - 1);
    }
  }

  /** Settling any set of payments neither creates nor destroys money. */
  lemma Conserved(bal: seq<int>, q: seq<Payment>, sel: seq<bool>)
    requires |q| == |sel| && InRange(q, |bal|)
    ensures TotalBalance(bal, q, sel, |bal|) == TotalStart(bal, |bal|)
  {
    TotalSplits(bal, q, sel, |bal|);
    PaidIsGot(q, sel, |bal|, |q|);
  }

  // ---- one round -----------------------------------------------------------------------------------

  /** The next queued payment of the same source as payment k, from position `from` on; |q| if none. */
  function NextOf(q: seq<Payment>, k: nat, from: nat): (r: nat)
    requires k < |q| && from <= |q|
    ensures from <= r <= |q|
    ensures r < |q| ==> q[r].src == q[k].src
    ensures forall j :: from <= j < r ==> q[j].src != q[k].src
    decreases |q| - from
  {
    if from == |q| then from else if q[from].src == q[k].src then from else NextOf(q, k, from + 1)
  }

  /** A payment stays if its source is solvent, or if the source's next payment was in the set. */
  predicate Stays(bal: seq<int>, q: seq<Payment>, sel: seq<bool>, k: nat)
    requires |q| == |sel| && InRange(q, |bal|) && k < |q|
  {
    var next := NextOf(q, k, k + 1);
    sel[k] && (Balance(bal, q, sel, q[k].src) >= 0 || (next < |q| && sel[next]))
  }

  function Update(bal: seq<int>, q: seq<Payment>, sel: seq<bool>): (r: seq<bool>)
    requires |q| == |sel| && InRange(q, |bal|)
    ensures |r| == |q| && forall k :: 0 <= k < |q| ==> r[k] == Stays(bal, q, sel, k)
  {
    seq(|q|, k requires 0 <= k < |q| => Stays(bal, q, sel, k))
  }

  /** Each source's part of the set is a prefix of its queue. */
  ghost predicate PrefixShaped(q: seq<Payment>, sel: seq<bool>) {
    |q| == |sel| && forall j, k :: 0 <= j < k < |q| && q[j].src == q[k].src && sel[k] ==> sel[j]
  }

  /** The last payment of its source in the set. */
  ghost predicate LastSelected(q: seq<Payment>, sel: seq<bool>, k: nat)
    requires |q| == |sel| && k < |q|
  {
    sel[k] && forall j :: k < j < |q| && q[j].src == q[k].src ==> !sel[j]
  }

  /** A round drops exactly the last selected payment of each overdrawn bank. */
  lemma DropsExactlyLast(bal: seq<int>, q: seq<Payment>, sel: seq<bool>, k: nat)
    requires InRange(q, |bal|) && PrefixShaped(q, sel) && k < |q|
    ensures Update(bal, q, sel)[k]
       <==> sel[k] && !(Balance(bal, q, sel, q[k].src) < 0 && LastSelected(q, sel, k))
  {
    var next := NextOf(q, k, k + 1);
    if next < |q| && !sel[next] {
      forall j | k < j < |q| && q[j].src == q[k].src ensures !sel[j] {
      }
    }
  }

  lemma KeepsShape(bal: seq<int>, q: seq<Payment>, sel: seq<bool>)
    requires InRange(q, |bal|) && PrefixShaped(q, sel)
    ensures PrefixShaped(q, Update(bal, q, sel))
  {
    var r := Update(bal, q, sel);
    forall j, k | 0 <= j < k < |q| && q[j].src == q[k].src && r[k] ensures r[j] {
      DropsExactlyLast(bal, q, sel, j);
      DropsExactlyLast(bal, q, sel, k);
    }
  }

  predicate Within(a: seq<bool>, b: seq<bool>) {
    |a| == |b| && forall k :: 0 <= k < |a| ==> a[k] ==> b[k]
  }

  predicate Feasible(bal: seq<int>, q: seq<Payment>, sel: seq<bool>)
    requires |q| == |sel|
  {
    forall i :: 0 <= i < |bal| ==> Balance(bal, q, sel, i) >= 0
  }

  predicate NonNegative(bal: seq<int>) {
    forall i :: 0 <= i < |bal| ==> bal[i] >= 0
  }

  /** Who has paid something has a last selected payment. */
  lemma {:induction false} PayerHasLast(q: seq<Payment>, sel: seq<bool>, i: nat, n: nat) returns (k: nat)
    requires n <= |q| == |sel| && Paid(q, sel, i, n) > 0
    requires forall j :: n <= j < |q| && q[j].src == i ==> !sel[j]
    ensures k < |q| && q[k].src == i && LastSelected(q, sel, k)
  {
    if q[n - 1].src == i && sel[n - 1] {
      k := n - 1;
    } else {
      k := PayerHasLast(q, sel, i, n - 1);
    }
  }

  /** The rounds stop exactly when nobody is overdrawn. */
  lemma StopsWhenFeasible(bal: seq<int>, q: seq<Payment>, sel: seq<bool>)
    requires InRange(q, |bal|) && PrefixShaped(q, sel) && NonNegative(bal)
    ensures Within(Update(bal, q, sel), sel)
    ensures Update(bal, q, sel) == sel <==> Feasible(bal, q, sel)
  {
    if !Feasible(bal, q, sel) {
      var i :| 0 <= i < |bal| && Balance(bal, q, sel, i) < 0;
      var k := PayerHasLast(q, sel, i, |q|);
      DropsExactlyLast(bal, q, sel, k);
    }
  }

  // ---- the largest feasible set -----------------------------------------------------------------

  lemma {:induction false} GotMonotone(q: seq<Payment>, t: seq<bool>, s: seq<bool>, i: nat, k: nat)
    requires k <= |q| == |t| && Within(t, s)
    ensures Got(q, t, i, k) <= Got(q, s, i, k)
  {
    if k > 0 {
      GotMonotone(q, t, s, i, k - 1);
    }
  }

  lemma {:induction false} PaidSame(q: seq<Payment>, t: seq<bool>, s: seq<bool>, i: nat, k: nat)
    requires k <= |q| == |t| == |s|
    requires forall j :: 0 <= j < k && q[j].src == i ==> t[j] == s[j]
    ensures Paid(q, t, i, k) == Paid(q, s, i, k)
  {
    if k > 0 {
      PaidSame(q, t, s, i, k - 1);
    }
  }

  /** No feasible set loses a payment to a round. */
  lemma KeepsFeasible(bal: seq<int>, q: seq<Payment>, t: seq<bool>, s: seq<bool>)
    requires InRange(q, |bal|) && PrefixShaped(q, t) && PrefixShaped(q, s) && Within(t, s)
    requires Feasible(bal, q, t)
    ensures Within(t, Update(bal, q, s))
  {
    forall k | 0 <= k < |q| && t[k] ensures Update(bal, q, s)[k] {
      var i := q[k].src;
      DropsExactlyLast(bal, q, s, k);
      assert Balance(bal, q, t, i) >= 0;
      if Balance(bal, q, s, i) < 0 && LastSelected(q, s, k) {
        forall j | 0 <= j < |q| && q[j].src == i ensures t[j] == s[j] {
        }
        PaidSame(q, t, s, i, |q|);
        GotMonotone(q, t, s, i, |q|);
        assert false;
      }
    }
  }

  function Count(sel: seq<bool>, k: nat): (r: nat)
    requires k <= |sel|
    ensures r <= k
  {
    if k == 0 then 0 else Count(sel, k - 1) + if sel[k - 1] then 1 else 0
  }

  lemma {:induction false} CountWithin(a: seq<bool>, b: seq<bool>, k: nat)
    requires Within(a, b) && k <= |a|
    ensures Count(a, k) <= Count(b, k)
    ensures Count(a, k) == Count(b, k) ==> a[..k] == b[..k]
  {
    if k > 0 {
      CountWithin(a, b, k - 1);
      assert a[..k] == a[..k - 1] + [a[k - 1]] && b[..k] == b[..k - 1] + [b[k - 1]];
    }
  }

  /** The set after so many rounds. */
  function Rounds(bal: seq<int>, q: seq<Payment>, sel: seq<bool>, rounds: nat): (r: seq<bool>)
    requires |q| == |sel| && InRange(q, |bal|)
    ensures |r| == |q|
  {
    if rounds == 0 then sel else Update(bal, q, Rounds(bal, q, sel, rounds - 1))
  }

  /** What every round keeps; and a round either changes nothing or removes a payment. */
  lemma {:induction false} RoundsKeep(bal: seq<int>, q: seq<Payment>, sel: seq<bool>, rounds: nat)
    requires InRange(q, |bal|) && PrefixShaped(q, sel) && NonNegative(bal)
    ensures var r := Rounds(bal, q, sel, rounds);
      && PrefixShaped(q, r) && Within(r, sel)
      && (Feasible(bal, q, r) || Count(r, |q|) + rounds <= Count(sel, |q|))
  {
    if rounds > 0 {
      hide Balance, Stays, Feasible, PrefixShaped;
      var s := Rounds(bal, q, sel, rounds - 1);
      RoundsKeep(bal, q, sel, rounds - 1);
      StopsWhenFeasible(bal, q, s);
      KeepsShape(bal, q, s);
      var r := Update(bal, q, s);
      CountWithin(r, s, |q|);
      assert r[..|q|] == r && s[..|q|] == s;
    }
  }

  lemma {:induction false} RoundsKeepFeasible(bal: seq<int>, q: seq<Payment>, t: seq<bool>, sel: seq<bool>, rounds: nat)
    requires InRange(q, |bal|) && PrefixShaped(q, sel) && NonNegative(bal)
    requires PrefixShaped(q, t) && Feasible(bal, q, t) && Within(t, sel)
    ensures Within(t, Rounds(bal, q, sel, rounds))
  {
    if rounds > 0 {
      hide Balance, Stays, Feasible, PrefixShaped;
      RoundsKeepFeasible(bal, q, t, sel, rounds - 1);
      RoundsKeep(bal, q, sel, rounds - 1);
      KeepsFeasible(bal, q, t, Rounds(bal, q, sel, rounds - 1));
    }
  }

  function Everything(n: nat): (s: seq<bool>)
    ensures |s| == n && forall k :: 0 <= k < n ==> s[k]
  {
    seq(n, _ => true)
  }

  /** From the whole queue, at most as many rounds as payments lead to the largest set that
      overdraws nobody and takes a prefix of every bank's queue. */
  lemma LargestFeasible(bal: seq<int>, q: seq<Payment>)
    requires InRange(q, |bal|) && NonNegative(bal)
    ensures var r := Rounds(bal, q, Everything(|q|), |q|);
      && Feasible(bal, q, r) && PrefixShaped(q, r) && Update(bal, q, r) == r
      && forall t: seq<bool> {:trigger PrefixShaped(q, t)} :: PrefixShaped(q, t) && Feasible(bal, q, t) ==> Within(t, r)
  {
    hide Balance, Stays;
    var all := Everything(|q|);
    var r := Rounds(bal, q, all, |q|);
    RoundsKeep(bal, q, all, |q|);
    if !Feasible(bal, q, r) {
      NothingLeft(bal, q, r);
    }
    StopsWhenFeasible(bal, q, r);
    forall t: seq<bool> {:trigger PrefixShaped(q, t)} | PrefixShaped(q, t) && Feasible(bal, q, t) ensures Within(t, r) {
      RoundsKeepFeasible(bal, q, t, all, |q|);
    }
  }

  lemma {:induction false} NoneSelected(sel: seq<bool>, k: nat)
    requires k <= |sel| && Count(sel, k) == 0
    ensures forall j :: 0 <= j < k ==> !sel[j]
  {
    if k > 0 {
      NoneSelected(sel, k - 1);
    }
  }

  /** The empty set overdraws nobody. */
  lemma NothingLeft(bal: seq<int>, q: seq<Payment>, sel: seq<bool>)
    requires |q| == |sel| && InRange(q, |bal|) && NonNegative(bal) && Count(sel, |q|) == 0
    ensures Feasible(bal, q, sel)
  {
    NoneSelected(sel, |q|);
    if !Feasible(bal, q, sel) {
      var i :| 0 <= i < |bal| && Balance(bal, q, sel, i) < 0;
      var k := PayerHasLast(q, sel, i, |q|);
      assert false;
    }
  }
}
