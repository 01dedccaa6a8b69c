/** The gridlock circuit: the netting rule of module Netting as gates over 64-bit words. */
module GridlockCircuit {
  import opened Wrappers
  import opened Circuits
  import opened CircuitBuilder
  import opened Netting
  import Z = ZMod

  // ---- products -------------------------------------------------------------------------------------

  function Prod(s: seq<int>, n: nat): int
    requires n <= |s|
  {
    if n == 0 then 1 else Prod(s, n - 1) * s[n - 1]
  }

  lemma {:induction false} ProdPrefix(s: seq<int>, t: seq<int>, n: nat)
    requires n <= |s| && n <= |t| && s[..n] == t[..n]
    ensures Prod(s, n) == Prod(t, n)
  {
    if n > 0 {
      assert s[..n][..n - 1] == s[..n - 1] && t[..n][..n - 1] == t[..n - 1];
      assert s[n - 1] == s[..n][n - 1] && t[n - 1] == t[..n][n - 1];
      ProdPrefix(s, t, n - 1);
    }
  }

  lemma ProdBegin(m: nat, s: seq<int>, t: seq<int>)
    requires m > 0
    ensures Z.Cong(m, Prod(s, 0), Prod(t, 0))
    ensures |t| > 0 ==> Prod(t, 1) == t[0]
  {
  }

  lemma CongResidue(m: nat, a: int, b: int)
    requires m > 0 && 0 <= a < m && Z.Cong(m, a, b)
    ensures a == b % m
  {
    Z.ModUnique(m, a, 0, a);
  }

  /** Replacing two neighbours by their product. */
  lemma PairStep(m: nat, prev: seq<int>, i: nat, curr: seq<int>, v: int)
    requires m > 0 && i + 1 < |prev| && Z.Cong(m, Prod(curr, |curr|), Prod(prev, i))
    requires v == Z.Mul(m, prev[i], prev[i + 1])
    ensures Z.Cong(m, Prod(curr + [v], |curr| + 1), Prod(prev, i + 2))
  {
    hide Z.Cong;
    ProdPrefix(curr + [v], curr, |curr|);
    Z.CongMod(m, prev[i] * prev[i + 1]);
    Z.CongMul(m, Prod(curr, |curr|), Prod(prev, i), v, prev[i] * prev[i + 1]);
    var a, b, c := Prod(prev, i), prev[i], prev[i + 1];
    assert Prod(prev, i + 1) == a * b;
    assert Prod(prev, i + 2) == a * b * c;
    assert a * b * c == a * (b * c);
  }

  lemma LastStep(m: nat, prev: seq<int>, i: nat, curr: seq<int>)
    requires m > 0 && i + 1 == |prev| && Z.Cong(m, Prod(curr, |curr|), Prod(prev, i))
    ensures Z.Cong(m, Prod(curr + [prev[i]], |curr| + 1), Prod(prev, i + 1))
  {
    hide Z.Cong;
    ProdPrefix(curr + [prev[i]], curr, |curr|);
    Z.CongScale(m, Prod(curr, |curr|), Prod(prev, i), prev[i]);
  }

  lemma AddMod(m: nat, a: int, b: int)
    requires m > 0
    ensures Z.Add(m, a % m, b) == (a + b) % m && Z.Add(m, a, b % m) == (a + b) % m
    ensures Z.Sub(m, a, b % m) == (a - b) % m && Z.Sub(m, a % m, b) == (a - b) % m
  {
    Z.CongMod(m, a);
    Z.CongMod(m, b);
    Z.CongAdd(m, a % m, a, b, b);
    Z.CongAdd(m, a, a, b % m, b);
    Z.CongSub(m, a, a, b % m, b);
    Z.CongSub(m, a % m, a, b, b);
  }

  // ---- bits ---------------------------------------------------------------------------------------

  function B(b: bool): int {
    if b then 1 else 0
  }

  function Bits(s: seq<bool>): (r: seq<int>)
    ensures |r| == |s| && forall i :: 0 <= i < |s| ==> r[i] == B(s[i])
  {
    seq(|s|, i requires 0 <= i < |s| => B(s[i]))
  }

  function Not(s: seq<bool>): (r: seq<bool>)
    ensures |r| == |s| && forall i :: 0 <= i < |s| ==> r[i] == !s[i]
  {
    seq(|s|, i requires 0 <= i < |s| => !s[i])
  }

  /** Whose word has its top bit set. */
  function Negative(m: nat, ints: seq<int>): (r: seq<bool>)
    requires m > 0
    ensures |r| == |ints| && forall i :: 0 <= i < |ints| ==> r[i] == (Bit63(ints[i] % m) == 1)
  {
    seq(|ints|, i requires 0 <= i < |ints| => Bit63(ints[i] % m) == 1)
  }

  lemma BitArithmetic(m: nat, a: bool, b: bool)
    requires m > 1
    ensures Z.Mul(m, B(a), B(b)) == B(a && b)
    ensures !(a && b) ==> Z.Add(m, B(a), B(b)) == B(a || b)
    ensures Z.Add(m, Z.Mul(m, B(a), -1), 1) == B(!a)
  {
    Z.ModUnique(m, 1, 0, 1);
    Z.ModUnique(m, 0, 0, 0);
    Z.ModUnique(m, -1, -1, m - 1);
    Z.ModUnique(m, m, 1, 0);
  }

  /** Of the numbers that one wrap-around brings into the ring, the top bit of the word is the
      sign of exactly those of less than 63 bits and the negative ones that the ring keeps
      above 2^63. */
  lemma MsbIsSign(m: nat, e: int)
    requires TWO63 < m <= TWO64 && 0 <= e + m && e < m
    ensures Bit63(e % m) == B(e < 0) <==> TWO63 - m <= e < TWO63
  {
    if e < 0 {
      Z.ModUnique(m, e, -1, e + m);
    } else {
      Z.ModUnique(m, e, 0, e);
    }
  }

  ghost predicate AllTrue(s: seq<bool>, n: nat)
    requires n <= |s|
  {
    forall i :: 0 <= i < n ==> s[i]
  }

  /** A product of bits is 1 exactly when all of them are. */
  lemma {:induction false} ProdBits(s: seq<bool>, n: nat)
    requires n <= |s|
    ensures Prod(Bits(s), n) == B(AllTrue(s, n))
  {
    if n > 0 {
      ProdBits(s, n - 1);
    }
  }

  /** With selectors that are bits, the filtered queue settles like the selected part. */
  lemma {:induction false} FilteredPaid(m: nat, q: seq<Payment>, f: seq<Payment>, sel: seq<bool>, i: nat, k: nat)
    requires m > 1 && k <= |q| == |f| == |sel|
    requires forall j :: 0 <= j < |q| ==> q[j].amt < m && f[j].src == q[j].src && f[j].dest == q[j].dest
    requires forall j :: 0 <= j < |q| ==> f[j].amt == Z.Mul(m, B(sel[j]), q[j].amt)
    ensures Paid(f, Everything(|f|), i, k) == Paid(q, sel, i, k)
    ensures Got(f, Everything(|f|), i, k) == Got(q, sel, i, k)
  {
    if k > 0 {
      FilteredPaid(m, q, f, sel, i, k - 1);
      Z.ModUnique(m, q[k - 1].amt, 0, q[k - 1].amt);
      Z.ModUnique(m, 0, 0, 0);
    }
  }

  // ---- the object ------------------------------------------------------------------------------------

  /** An accumulator holds a total modulo m; while it is still empty it stands for 0. */
  ghost predicate Holds(m: nat, vs: seq<int>, o: Option<Wire>, total: int)
    requires m > 0
  {
    match o
    case None => total == 0
    case Some(w) => w < |vs| && vs[w] == total % m
  }

  ghost predicate AllHold(m: nat, vs: seq<int>, accs: seq<Option<Wire>>, totals: seq<nat>)
    requires m > 0
  {
    |accs| == |totals| && forall i :: 0 <= i < |accs| ==> Holds(m, vs, accs[i], totals[i])
  }

  lemma AllHoldGrows(m: nat, vs: seq<int>, ws: seq<int>, accs: seq<Option<Wire>>, totals: seq<nat>)
    requires m > 0 && vs <= ws && AllHold(m, vs, accs, totals)
    ensures AllHold(m, ws, accs, totals)
  {
    forall i | 0 <= i < |accs| ensures Holds(m, ws, accs[i], totals[i]) {
      assert Holds(m, vs, accs[i], totals[i]);
    }
  }

  lemma AllHoldSet(m: nat, vs: seq<int>, accs: seq<Option<Wire>>, i: nat, r: Option<Wire>, totals: seq<nat>, amt: nat)
    requires m > 0 && i < |accs| && AllHold(m, vs, accs, totals) && Holds(m, vs, r, totals[i] + amt)
    ensures AllHold(m, vs, accs[i := r], totals[i := totals[i] + amt])
  {
    hide Holds;
  }

  lemma HoldsAt(m: nat, vs: seq<int>, accs: seq<Option<Wire>>, totals: seq<nat>, i: nat)
    requires m > 0 && AllHold(m, vs, accs, totals) && i < |accs|
    ensures i < |totals| && Holds(m, vs, accs[i], totals[i])
  {
  }

  function PaidBy(q: seq<Payment>, n: nat, k: nat): (s: seq<nat>)
    requires k <= |q|
    ensures |s| == n && forall i :: 0 <= i < n ==> s[i] == Paid(q, Everything(|q|), i, k)
  {
    seq(n, i requires i >= 0 => Paid(q, Everything(|q|), i, k))
  }

  function GotBy(q: seq<Payment>, n: nat, k: nat): (s: seq<nat>)
    requires k <= |q|
    ensures |s| == n && forall i :: 0 <= i < n ==> s[i] == Got(q, Everything(|q|), i, k)
  {
    seq(n, i requires i >= 0 => Got(q, Everything(|q|), i, k))
  }

  lemma TotalsStep(q: seq<Payment>, n: nat, k: nat)
    requires k < |q| && q[k].src < n && q[k].dest < n
    ensures PaidBy(q, n, k + 1) == PaidBy(q, n, k)[q[k].src := PaidBy(q, n, k)[q[k].src] + q[k].amt]
    ensures GotBy(q, n, k + 1) == GotBy(q, n, k)[q[k].dest := GotBy(q, n, k)[q[k].dest] + q[k].amt]
  {
  }

  /** The balances when every payment of q is settled. */
  function Balances(bal: seq<int>, q: seq<Payment>): (s: seq<int>)
    ensures |s| == |bal| && forall i :: 0 <= i < |bal| ==> s[i] == Balance(bal, q, Everything(|q|), i)
  {
    seq(|bal|, i requires 0 <= i < |bal| => Balance(bal, q, Everything(|q|), i))
  }

  datatype Txn = Txn(src: nat, dest: nat, amt: Wire)

  // ---- a source's payments -------------------------------------------------------------------------

  /** The queue positions below k whose source is i, in order. */
  function SrcList(txns: seq<Txn>, i: nat, k: nat): (l: seq<nat>)
    requires k <= |txns|
  {
    if k == 0 then [] else SrcList(txns, i, k - 1) + if txns[k - 1].src == i then [k - 1] else []
  }

  lemma {:induction false} SrcListMember(txns: seq<Txn>, i: nat, k: nat)
    requires k <= |txns|
    ensures forall p: nat :: p in SrcList(txns, i, k) <==> p < k && txns[p].src == i
  {
    if k > 0 {
      SrcListMember(txns, i, k - 1);
      assert SrcList(txns, i, k) == SrcList(txns, i, k - 1) + if txns[k - 1].src == i then [k - 1] else [];
    }
  }

  ghost predicate Increasing(l: seq<nat>) {
    forall a, b :: 0 <= a < b < |l| ==> l[a] < l[b]
  }

  lemma {:induction false} SrcListOrdered(txns: seq<Txn>, i: nat, k: nat)
    requires k <= |txns|
    ensures Increasing(SrcList(txns, i, k))
  {
    if k > 0 {
      SrcListOrdered(txns, i, k - 1);
      SrcListMember(txns, i, k - 1);
      var l := SrcList(txns, i, k - 1);
      forall a | 0 <= a < |l| ensures l[a] < k - 1 {
        assert l[a] in l;
      }
    }
  }

  /** In a source's list, the next entry is the next payment of that source. */
  lemma {:induction false} SrcListNext(txns: seq<Txn>, q: seq<Payment>, i: nat, j: nat)
    requires |q| == |txns| && forall k :: 0 <= k < |q| ==> q[k].src == txns[k].src
    requires j < |SrcList(txns, i, |txns|)|
    ensures var l := SrcList(txns, i, |txns|);
      && l[j] < |q| && q[l[j]].src == i
      && NextOf(q, l[j], l[j] + 1) == (if j + 1 < |l| then l[j + 1] else |q|)
      && (j + 1 < |l| ==> l[j + 1] < |q|)
  {
    var l := SrcList(txns, i, |txns|);
    SrcListOrdered(txns, i, |txns|);
    SrcListMember(txns, i, |txns|);
    assert l[j] in l;
    var n := NextOf(q, l[j], l[j] + 1);
    if j + 1 < |l| {
      assert l[j + 1] in l;
    }
    if n < |q| {
      assert n in l;
      var p :| 0 <= p < |l| && l[p] == n;
      assert p > j;
    }
  }

  /** What the round's gates compute for payment k: the netting rule with the solvency of its
      source given. */
  predicate Kept(q: seq<Payment>, sel: seq<bool>, solvent: seq<bool>, k: nat)
    requires |sel| == |q| && k < |q| && InRange(q, |solvent|)
  {
    var next := NextOf(q, k, k + 1);
    sel[k] && (solvent[q[k].src] || (next < |q| && sel[next]))
  }

  function KeptSet(q: seq<Payment>, sel: seq<bool>, solvent: seq<bool>): (r: seq<bool>)
    requires |sel| == |q| && InRange(q, |solvent|)
    ensures |r| == |q| && forall k :: 0 <= k < |q| ==> r[k] == Kept(q, sel, solvent, k)
  {
    seq(|q|, k requires 0 <= k < |q| => Kept(q, sel, solvent, k))
  }

  function Solvent(m: nat, ints: seq<int>): (r: seq<bool>)
    requires m > 0
    ensures r == Not(Negative(m, ints))
  {
    Not(Negative(m, ints))
  }

  /** The balances after the selected payments. */
  function Netted(bal: seq<int>, q: seq<Payment>, sel: seq<bool>): (ints: seq<int>)
    requires |q| == |sel|
    ensures |ints| == |bal| && forall i :: 0 <= i < |bal| ==> ints[i] == Balance(bal, q, sel, i)
  {
    seq(|bal|, i requires 0 <= i < |bal| => Balance(bal, q, sel, i))
  }

  /** Every balance can be told from its top bit. */
  ghost predicate Representable(m: nat, ints: seq<int>) {
    forall i :: 0 <= i < |ints| ==> TWO63 - m <= ints[i] < TWO63
  }

  lemma NotNot(s: seq<bool>)
    ensures Not(Not(s)) == s
  {
  }

  /** The filtered queue leads to the balances of the selected payments. */
  lemma FilteredBalances(m: nat, bal: seq<int>, q: seq<Payment>, f: seq<Payment>, sel: seq<bool>)
    requires m > 1 && |q| == |f| == |sel|
    requires forall j :: 0 <= j < |q| ==> q[j].amt < m && f[j].src == q[j].src && f[j].dest == q[j].dest
    requires forall j :: 0 <= j < |q| ==> f[j].amt == Z.Mul(m, B(sel[j]), q[j].amt)
    ensures forall i :: 0 <= i < |bal| ==> Balances(bal, f)[i] == Balance(bal, q, sel, i)
  {
    forall i | 0 <= i < |bal| ensures Balances(bal, f)[i] == Balance(bal, q, sel, i) {
      FilteredPaid(m, q, f, sel, i, |q|);
    }
  }

  /** With balances the ring can hold, the gates compute one round of the netting rule. */
  lemma KeptIsUpdate(m: nat, bal: seq<int>, q: seq<Payment>, sel: seq<bool>)
    requires TWO63 < m <= TWO64 && |q| == |sel| && InRange(q, |bal|) && Representable(m, Netted(bal, q, sel))
    ensures KeptSet(q, sel, Solvent(m, Netted(bal, q, sel))) == Update(bal, q, sel)
    ensures AllTrue(Solvent(m, Netted(bal, q, sel)), |bal|) <==> Feasible(bal, q, sel)
  {
    hide Balance, Bit63;
    var solvent := Solvent(m, Netted(bal, q, sel));
    forall i | 0 <= i < |bal| ensures solvent[i] == (Balance(bal, q, sel, i) >= 0) {
      MsbIsSign(m, Netted(bal, q, sel)[i]);
    }
    forall k | 0 <= k < |q| ensures Kept(q, sel, solvent, k) == Stays(bal, q, sel, k) {
    }
  }

  lemma {:induction false} NoneKept(s: seq<bool>, n: nat)
    requires n <= |s|
    ensures AllTrue(Not(s), n) <==> Count(s, n) == 0
  {
    if n > 0 {
      NoneKept(s, n - 1);
    }
  }

  /** The queue with the amounts the wires hold. */
  function QueueOf(txns: seq<Txn>, vs: seq<int>, n: nat): (q: seq<Payment>)
    requires forall k :: 0 <= k < |txns| ==> txns[k].src < n && txns[k].dest < n && txns[k].amt < |vs|
    requires forall w :: 0 <= w < |vs| ==> 0 <= vs[w]
    ensures |q| == |txns| && InRange(q, n)
    ensures forall k :: 0 <= k < |q| ==> q[k] == Payment(txns[k].src, txns[k].dest, vs[txns[k].amt])
  {
    seq(|txns|, k requires 0 <= k < |txns| => Payment(txns[k].src, txns[k].dest, vs[txns[k].amt]))
  }

  class SoDoGridLock {
    const m: nat
    const numBanks: nat
    const circ: Circuit
    var txnQueue: seq<Txn>
    /** An arbitrary assignment of the inputs: what is proved of the wires' values is proved
        for every assignment, as no gate can depend on it. */
    ghost const inputs: map<Wire, int>

    ghost predicate Valid()
      reads this, circ
    {
      && m > 1 && circ.Valid()
      && forall k :: 0 <= k < |txnQueue| ==>
        txnQueue[k].src < numBanks && txnQueue[k].dest < numBanks && txnQueue[k].amt < |circ.gates|
    }

    /** The value of every wire. */
    ghost function Values(): (vs: seq<int>)
      reads this, circ
      requires Valid()
      ensures |vs| == |circ.gates|
    {
      EvalAll(m, circ.gates, inputs)
    }

    ghost function ValuesOf(ws: seq<Wire>): (s: seq<int>)
      reads this, circ
      requires Valid() && Below(ws, |circ.gates|)
      ensures |s| == |ws|
    {
      var vs := Values();
      seq(|ws|, i requires 0 <= i < |ws| => vs[ws[i]])
    }

    constructor (m: nat, numBanks: nat, ghost inputs: map<Wire, int>)
      requires m > 1
      ensures Valid() && this.m == m && this.numBanks == numBanks && this.inputs == inputs
      ensures txnQueue == [] && fresh(circ) && circ.gates == [] && circ.outputs == []
    {
      this.m, this.numBanks, this.inputs := m, numBanks, inputs;
      var c := new Circuit();
      circ := c;
      txnQueue := [];
    }

    /** Queues a payment whose amount is a new input; unknown banks are refused. */
    method NewTransaction(src: nat, dest: nat) returns (r: Option<Wire>)
      requires Valid()
      modifies this, circ
      ensures Valid() && circ.outputs == old(circ.outputs)
      ensures r.Some? <==> src < numBanks && dest < numBanks
      ensures r.Some? ==>
        && r.value == |old(circ.gates)| && circ.gates == old(circ.gates) + [Inp]
        && txnQueue == old(txnQueue) + [Txn(src, dest, r.value)]
      ensures r.None? ==> txnQueue == old(txnQueue) && circ.gates == old(circ.gates)
    {
      if src >= numBanks || dest >= numBanks {
        return None;
      }
      var amt := circ.NewInputWire();
      txnQueue := txnQueue + [Txn(src, dest, amt)];
      r := Some(amt);
    }

    /** Earlier wires keep their values when gates are appended. */
    twostate predicate Grows()
      reads this, circ
    {
      && old(Valid()) && Valid() && txnQueue == old(txnQueue)
      && old(Values()) <= Values()
    }

    /** One more gate, with its value. */
    method Gate(g: Gate) returns (w: Wire)
      requires Valid() && GateOk(g, |circ.gates|) && !g.Inp?
      modifies circ
      ensures Grows() && circ.outputs == old(circ.outputs)
      ensures w == |old(circ.gates)| && |circ.gates| == w + 1
      ensures old(GateOk(g, |Values()|) && Reduced(m, Values()))
      ensures Values()[w] == old(GateVal(m, g, Values(), 0))
    {
      ghost var gates := circ.gates;
      var r := circ.Append(g);
      w := r.value;
      EvalAllPush(m, gates, g, inputs);
    }

    /** The wires of a payment vector hold the filtered amounts. */
    ghost predicate HoldsAmounts(ws: seq<Wire>, q: seq<Payment>)
      reads this, circ
      requires Valid()
    {
      |ws| == |q| && Below(ws, |circ.gates|) && forall k :: 0 <= k < |q| ==> Values()[ws[k]] == q[k].amt
    }

    method FilterAmounts(selected: seq<Wire>) returns (filter: seq<Wire>, ghost q: seq<Payment>)
      requires Valid() && |selected| == |txnQueue| && Below(selected, |circ.gates|)
      modifies circ
      ensures Grows() && circ.outputs == old(circ.outputs) && HoldsAmounts(filter, q)
      ensures |q| == |txnQueue| && forall k :: 0 <= k < |q| ==>
        && q[k].src == txnQueue[k].src && q[k].dest == txnQueue[k].dest
        && q[k].amt == Z.Mul(m, old(Values())[selected[k]], old(Values())[txnQueue[k].amt])
    {
      filter, q := [], [];
      for i := 0 to |txnQueue|
        invariant Grows() && circ.outputs == old(circ.outputs) && HoldsAmounts(filter, q)
        invariant |q| == i && forall k :: 0 <= k < i ==>
          && q[k].src == txnQueue[k].src && q[k].dest == txnQueue[k].dest
          && q[k].amt == Z.Mul(m, old(Values())[selected[k]], old(Values())[txnQueue[k].amt])
      {
        var w := Gate(Mul2(selected[i], txnQueue[i].amt));
        filter := filter + [w];
        q := q + [Payment(txnQueue[i].src, txnQueue[i].dest, Values()[w])];
      }
    }

    /** Adds wire w to accumulator i. */
    method Accumulate(accs: seq<Option<Wire>>, i: nat, w: Wire, ghost totals: seq<nat>, ghost amt: nat)
      returns (r: seq<Option<Wire>>)
      requires Valid() && AllHold(m, Values(), accs, totals) && i < |accs|
      requires w < |circ.gates| && Values()[w] == amt
      modifies circ
      ensures Grows() && circ.outputs == old(circ.outputs)
      ensures AllHold(m, Values(), r, totals[i := totals[i] + amt])
    {
      ghost var vs := Values();
      assert Holds(m, vs, accs[i], totals[i]) && 0 <= vs[w] < m;
      hide AllHold, EvalAll;
      if accs[i].None? {
        r := accs[i := Some(w)];
        Z.ModUnique(m, amt, 0, amt);
      } else {
        var u := Gate(Lin(false, accs[i].value, w));
        r := accs[i := Some(u)];
        AddMod(m, totals[i], amt);
        AllHoldGrows(m, vs, Values(), accs, totals);
      }
      AllHoldSet(m, Values(), accs, i, r[i], totals, amt);
    }

    /** One queued payment is added to its source's and its destination's accumulator. */
    method SumPayment(vs0: seq<Option<Wire>>, vr0: seq<Option<Wire>>, k: nat, w: Wire, ghost q: seq<Payment>)
      returns (vs: seq<Option<Wire>>, vr: seq<Option<Wire>>)
      requires Valid() && k < |txnQueue| == |q| && |vs0| == |vr0| == numBanks
      requires q[k].src == txnQueue[k].src && q[k].dest == txnQueue[k].dest
      requires w < |circ.gates| && Values()[w] == q[k].amt
      requires AllHold(m, Values(), vs0, PaidBy(q, numBanks, k)) && AllHold(m, Values(), vr0, GotBy(q, numBanks, k))
      modifies circ
      ensures Grows() && circ.outputs == old(circ.outputs) && |vs| == |vr| == numBanks
      ensures AllHold(m, Values(), vs, PaidBy(q, numBanks, k + 1))
        && AllHold(m, Values(), vr, GotBy(q, numBanks, k + 1))
    {
      var txn := txnQueue[k];
      ghost var paid, got := PaidBy(q, numBanks, k), GotBy(q, numBanks, k);
      TotalsStep(q, numBanks, k);
      ghost var paid', got' := PaidBy(q, numBanks, k + 1), GotBy(q, numBanks, k + 1);
      hide PaidBy, GotBy, Paid, Got, EvalAll, AllHold, Holds, HoldsAmounts;
      ghost var before := Values();
      vs := Accumulate(vs0, txn.src, w, paid, q[k].amt);
      AllHoldGrows(m, before, Values(), vr0, got);
      ghost var between := Values();
      vr := Accumulate(vr0, txn.dest, w, got, q[k].amt);
      AllHoldGrows(m, between, Values(), vs, paid');
    }

    /** Every bank's outgoing and incoming amounts are added up, in the order of the queue. */
    method SumByBank(filter: seq<Wire>, ghost q: seq<Payment>) returns (vs: seq<Option<Wire>>, vr: seq<Option<Wire>>)
      requires Valid() && HoldsAmounts(filter, q) && |q| == |txnQueue|
      requires forall k :: 0 <= k < |q| ==> q[k].src == txnQueue[k].src && q[k].dest == txnQueue[k].dest
      modifies circ
      ensures Grows() && circ.outputs == old(circ.outputs) && |vs| == |vr| == numBanks
      ensures AllHold(m, Values(), vs, PaidBy(q, numBanks, |q|))
      ensures AllHold(m, Values(), vr, GotBy(q, numBanks, |q|))
    {
      vs, vr := seq(numBanks, _ => None), seq(numBanks, _ => None);
      assert AllHold(m, Values(), vs, PaidBy(q, numBanks, 0)) && AllHold(m, Values(), vr, GotBy(q, numBanks, 0));
      hide EvalAll, AllHold, Holds, PaidBy, GotBy, Paid, Got;
      for k := 0 to |txnQueue|
        invariant Grows() && circ.outputs == old(circ.outputs) && HoldsAmounts(filter, q) && |vs| == |vr| == numBanks
        invariant AllHold(m, Values(), vs, PaidBy(q, numBanks, k))
        invariant AllHold(m, Values(), vr, GotBy(q, numBanks, k))
      {
        vs, vr := SumPayment(vs, vr, k, filter[k], q);
      }
    }

    /** A bank's balance after the selected payments. */
    method NewBalance(bal: Wire, paid: Option<Wire>, got: Option<Wire>, ghost p: nat, ghost g: nat) returns (w: Wire)
      requires Valid() && bal < |circ.gates| && Holds(m, Values(), paid, p) && Holds(m, Values(), got, g)
      modifies circ
      ensures Grows() && circ.outputs == old(circ.outputs) && w < |circ.gates|
      ensures Values()[w] == (old(Values())[bal] - p + g) % m
    {
      ghost var b := Values()[bal];
      w := bal;
      Z.ModUnique(m, b, 0, b);
      hide EvalAll;
      if paid.Some? {
        w := Gate(Lin(true, w, paid.value));
        AddMod(m, b, p);
      }
      if got.Some? {
        w := Gate(Lin(false, w, got.value));
        AddMod(m, b - p, g);
        AddMod(m, b - p, g % m);
        AddMod(m, (b - p) % m, g);
      }
    }

    /** Wire ws[i] holds ints[i] modulo m. */
    ghost predicate HoldsMod(ws: seq<Wire>, ints: seq<int>)
      reads this, circ
      requires Valid()
    {
      |ws| == |ints| && Below(ws, |circ.gates|) && forall i :: 0 <= i < |ws| ==> Values()[ws[i]] == ints[i] % m
    }

    /** The balances after the selected payments, modulo m; q lists the payments with the
        amounts their selectors let through. */
    method NewBalances(balance: seq<Wire>, selected: seq<Wire>) returns (nb: seq<Wire>, ghost q: seq<Payment>)
      requires Valid() && |balance| == numBanks && Below(balance, |circ.gates|)
      requires |selected| == |txnQueue| && Below(selected, |circ.gates|)
      modifies circ
      ensures Grows() && circ.outputs == old(circ.outputs)
      ensures |q| == |txnQueue| && forall k :: 0 <= k < |q| ==>
        && q[k].src == txnQueue[k].src && q[k].dest == txnQueue[k].dest
        && q[k].amt == Z.Mul(m, old(Values())[selected[k]], old(Values())[txnQueue[k].amt])
      ensures HoldsMod(nb, Balances(old(ValuesOf(balance)), q))
    {
      ghost var bal := ValuesOf(balance);
      var filter;
      filter, q := FilterAmounts(selected);
      var vs, vr := SumByBank(filter, q);
      nb := AllBalances(balance, vs, vr, bal, q);
    }

    method AllBalances(balance: seq<Wire>, vs: seq<Option<Wire>>, vr: seq<Option<Wire>>, ghost bal: seq<int>,
                       ghost q: seq<Payment>)
      returns (nb: seq<Wire>)
      requires Valid() && |balance| == |vs| == |vr| == numBanks && Below(balance, |circ.gates|)
        && bal == ValuesOf(balance)
      requires AllHold(m, Values(), vs, PaidBy(q, numBanks, |q|))
      requires AllHold(m, Values(), vr, GotBy(q, numBanks, |q|))
      modifies circ
      ensures Grows() && circ.outputs == old(circ.outputs) && HoldsMod(nb, Balances(bal, q))
    {
      hide Paid, Got, EvalAll, Holds, AllHold;
      nb := [];
      ghost var was := Values();
      for i := 0 to numBanks
        invariant Grows() && circ.outputs == old(circ.outputs) && was <= Values()
        invariant HoldsMod(nb, Balances(bal, q)[..i])
      {
        AllHoldGrows(m, was, Values(), vs, PaidBy(q, numBanks, |q|));
        AllHoldGrows(m, was, Values(), vr, GotBy(q, numBanks, |q|));
        HoldsAt(m, Values(), vs, PaidBy(q, numBanks, |q|), i);
        HoldsAt(m, Values(), vr, GotBy(q, numBanks, |q|), i);
        assert Values()[balance[i]] == bal[i];
        var w := NewBalance(balance[i], vs[i], vr[i], PaidBy(q, numBanks, |q|)[i], GotBy(q, numBanks, |q|)[i]);
        nb := nb + [w];
      }
    }

    ghost predicate HoldVals(ws: seq<Wire>, vals: seq<int>)
      reads this, circ
      requires Valid()
    {
      |ws| == |vals| && Below(ws, |circ.gates|) && forall i :: 0 <= i < |ws| ==> Values()[ws[i]] == vals[i]
    }

    /** Two neighbours become their product. */
    method MultPair(prev: seq<Wire>, i: nat, curr0: seq<Wire>, ghost pv: seq<int>, ghost cv0: seq<int>)
      returns (curr: seq<Wire>, ghost cv: seq<int>)
      requires Valid() && i + 1 < |prev| && HoldVals(prev, pv) && HoldVals(curr0, cv0)
      requires Z.Cong(m, Prod(cv0, |cv0|), Prod(pv, i))
      modifies circ
      ensures Grows() && circ.outputs == old(circ.outputs) && HoldVals(prev, pv) && HoldVals(curr, cv)
      ensures |curr| == |curr0| + 1 && Z.Cong(m, Prod(cv, |cv|), Prod(pv, i + 2))
    {
      hide EvalAll, Z.Cong, Prod;
      var w := Gate(Mul2(prev[i], prev[i + 1]));
      ghost var v := Values()[w];
      assert v == Z.Mul(m, pv[i], pv[i + 1]);
      PairStep(m, pv, i, cv0, v);
      curr := curr0 + [w];
      cv := cv0 + [v];
    }

    /** One level of the product tree: neighbours are multiplied, a last odd wire moves up. */
    method MultLevel(prev: seq<Wire>, ghost pv: seq<int>) returns (curr: seq<Wire>, ghost cv: seq<int>)
      requires Valid() && |prev| > 0 && HoldVals(prev, pv)
      modifies circ
      ensures Grows() && circ.outputs == old(circ.outputs) && HoldVals(curr, cv)
      ensures |curr| == (|prev| + 1) / 2 && Z.Cong(m, Prod(cv, |cv|), Prod(pv, |pv|))
    {
      hide EvalAll, Z.Cong, Prod;
      curr, cv := [], [];
      ProdBegin(m, cv, pv);
      var i := 0;
      while i < |prev| - 1
        invariant 0 <= i <= |prev| && i == 2 * |curr|
        invariant Grows() && circ.outputs == old(circ.outputs) && HoldVals(prev, pv) && HoldVals(curr, cv)
        invariant Z.Cong(m, Prod(cv, |cv|), Prod(pv, i))
      {
        curr, cv := MultPair(prev, i, curr, pv, cv);
        i := i + 2;
      }
      if |prev| % 2 == 1 {
        LastStep(m, pv, i, cv);
        curr := curr + [prev[|prev| - 1]];
        cv := cv + [pv[i]];
      }
    }

    /** A tree of products; the program's loop has no exit for an empty list. */
    method TreeMult(inputs: seq<Wire>) returns (w: Wire)
      requires Valid() && |inputs| > 0 && Below(inputs, |circ.gates|)
      modifies circ
      ensures Grows() && circ.outputs == old(circ.outputs) && w < |circ.gates|
      ensures Values()[w] == Prod(old(ValuesOf(inputs)), |inputs|) % m
    {
      ghost var start := ValuesOf(inputs);
      assert Z.Cong(m, Prod(start, |start|), Prod(start, |start|));
      hide Z.Cong, Prod, EvalAll;
      var prev := inputs;
      ghost var pv := start;
      while |prev| != 1
        invariant |prev| > 0 && Grows() && circ.outputs == old(circ.outputs) && HoldVals(prev, pv)
        invariant Z.Cong(m, Prod(pv, |pv|), Prod(start, |start|))
        decreases |prev|
      {
        ghost var cv;
        prev, cv := MultLevel(prev, pv);
        Z.CongTrans(m, Prod(cv, |cv|), Prod(pv, |pv|), Prod(start, |start|));
        pv := cv;
      }
      w := prev[0];
      ProdBegin(m, pv, pv);
      CongResidue(m, pv[0], Prod(start, |start|));
    }

    // ---- one round ----------------------------------------------------------------------------------

    /** The queue with the amounts the inputs give. */
    ghost function Queue(): (q: seq<Payment>)
      reads this, circ
      requires Valid()
      ensures |q| == |txnQueue| && InRange(q, numBanks)
      ensures forall k :: 0 <= k < |q| ==>
        q[k].src == txnQueue[k].src && q[k].dest == txnQueue[k].dest && q[k].amt == Values()[txnQueue[k].amt]
    {
      QueueOf(txnQueue, Values(), numBanks)
    }

    /** 1 - w, for a wire that holds a bit. */
    method Complement(w: Wire, ghost b: bool) returns (r: Wire)
      requires Valid() && w < |circ.gates| && Values()[w] == B(b)
      modifies circ
      ensures Grows() && circ.outputs == old(circ.outputs) && r < |circ.gates| && Values()[r] == B(!b)
    {
      hide EvalAll;
      BitArithmetic(m, b, b);
      var t := Gate(ConstMul(w, -1));
      r := Gate(ConstAdd(t, 1));
    }

    method Complements(ws: seq<Wire>, ghost bs: seq<bool>) returns (rs: seq<Wire>)
      requires Valid() && HoldVals(ws, Bits(bs))
      modifies circ
      ensures Grows() && circ.outputs == old(circ.outputs) && HoldVals(rs, Bits(Not(bs)))
    {
      hide EvalAll;
      rs := [];
      for i := 0 to |ws|
        invariant Grows() && circ.outputs == old(circ.outputs) && HoldVals(ws, Bits(bs))
        invariant HoldVals(rs, Bits(Not(bs))[..i])
      {
        var r := Complement(ws[i], bs[i]);
        rs := rs + [r];
      }
    }

    /** The top bits of the balances. */
    method Signs(nb: seq<Wire>, ghost ints: seq<int>) returns (neg: seq<Wire>)
      requires Valid() && HoldsMod(nb, ints) && m > 2
      modifies circ
      ensures Grows() && circ.outputs == old(circ.outputs) && HoldVals(neg, Bits(Negative(m, ints)))
    {
      hide EvalAll, Bit63;
      neg := [];
      for i := 0 to |nb|
        invariant Grows() && circ.outputs == old(circ.outputs) && HoldsMod(nb, ints)
        invariant HoldVals(neg, Bits(Negative(m, ints))[..i])
      {
        var w := Gate(Unary(KMsb, nb[i]));
        neg := neg + [w];
      }
    }

    /** The queue positions of every source. */
    method GroupBySource() returns (bySrc: seq<seq<nat>>)
      requires Valid()
      ensures |bySrc| == numBanks
      ensures forall i :: 0 <= i < numBanks ==> bySrc[i] == SrcList(txnQueue, i, |txnQueue|)
    {
      bySrc := seq(numBanks, _ => []);
      for k := 0 to |txnQueue|
        invariant |bySrc| == numBanks
        invariant forall i :: 0 <= i < numBanks ==> bySrc[i] == SrcList(txnQueue, i, k)
      {
        var src := txnQueue[k].src;
        bySrc := bySrc[src := bySrc[src] + [k]];
      }
    }

    /** The gates of a payment that has a successor: kept if the source is solvent or the
        successor was selected. */
    method KeepUnlessLast(s: Wire, next: Wire, neg: Wire, pos: Wire, ghost bs: bool, ghost bn: bool,
                          ghost solvent: bool)
      returns (w: Wire)
      requires Valid() && s < |circ.gates| && next < |circ.gates| && neg < |circ.gates| && pos < |circ.gates|
      requires Values()[s] == B(bs) && Values()[next] == B(bn) && Values()[neg] == B(!solvent)
        && Values()[pos] == B(solvent)
      modifies circ
      ensures Grows() && circ.outputs == old(circ.outputs) && w < |circ.gates|
      ensures Values()[w] == B(bs && (solvent || bn))
    {
      hide EvalAll, B;
      var x := Gate(Mul2(s, next));
      BitArithmetic(m, bs, bn);
      var t1 := Gate(Mul2(x, neg));
      BitArithmetic(m, bs && bn, !solvent);
      var t2 := Gate(Mul2(s, pos));
      BitArithmetic(m, bs, solvent);
      w := Gate(Lin(false, t1, t2));
      BitArithmetic(m, bs && bn && !solvent, bs && solvent);
      assert (bs && bn && !solvent) || (bs && solvent) <==> bs && (solvent || bn);
    }

    /** The wires of the payments in `done` hold their bits. */
    ghost predicate Served(ws: seq<Wire>, kept: seq<bool>, done: set<nat>)
      reads this, circ
      requires Valid()
    {
      && |ws| == |kept|
      && forall k :: k in done ==> k < |ws| && ws[k] < |circ.gates| && Values()[ws[k]] == B(kept[k])
    }

    /** The gates for payment l[j] of a bank whose payments are l. */
    method ServePayment(l: seq<nat>, j: nat, selected: seq<Wire>, neg: Wire, pos: Wire,
                        ghost q: seq<Payment>, ghost sel: seq<bool>, ghost solvent: seq<bool>, ghost i: nat)
      returns (w: Wire)
      requires Valid() && |q| == |sel| == |txnQueue| && InRange(q, |solvent|) && i < |solvent| == numBanks
      requires forall k :: 0 <= k < |q| ==> q[k].src == txnQueue[k].src
      requires l == SrcList(txnQueue, i, |txnQueue|) && j < |l| && HoldVals(selected, Bits(sel))
      requires neg < |circ.gates| && pos < |circ.gates|
      requires Values()[neg] == B(!solvent[i]) && Values()[pos] == B(solvent[i])
      modifies circ
      ensures Grows() && circ.outputs == old(circ.outputs) && w < |circ.gates| && l[j] < |q|
      ensures Values()[w] == B(Kept(q, sel, solvent, l[j]))
    {
      SrcListNext(txnQueue, q, i, j);
      hide EvalAll, NextOf, SrcList;
      var k := l[j];
      if j + 1 < |l| {
        w := KeepUnlessLast(selected[k], selected[l[j + 1]], neg, pos, sel[k], sel[l[j + 1]], solvent[i]);
      } else {
        w := Gate(Mul2(selected[k], pos));
        BitArithmetic(m, sel[k], solvent[i]);
      }
    }

    /** The gates for one bank's payments. */
    method ServeBank(i: nat, l: seq<nat>, selected: seq<Wire>, neg: Wire, pos: Wire, ws0: seq<Wire>,
                     ghost done0: set<nat>, ghost q: seq<Payment>, ghost sel: seq<bool>, ghost solvent: seq<bool>)
      returns (ws: seq<Wire>, ghost done: set<nat>)
      requires Valid() && |q| == |sel| == |txnQueue| && InRange(q, |solvent|) && i < |solvent| == numBanks
      requires forall k :: 0 <= k < |q| ==> q[k].src == txnQueue[k].src
      requires l == SrcList(txnQueue, i, |txnQueue|) && HoldVals(selected, Bits(sel))
      requires neg < |circ.gates| && pos < |circ.gates|
      requires Values()[neg] == B(!solvent[i]) && Values()[pos] == B(solvent[i])
      requires Served(ws0, KeptSet(q, sel, solvent), done0)
      modifies circ
      ensures Grows() && circ.outputs == old(circ.outputs) && Served(ws, KeptSet(q, sel, solvent), done)
      ensures done0 <= done && forall k: nat :: k < |q| && q[k].src == i ==> k in done
    {
      hide EvalAll, Kept, NextOf, SrcList;
      SrcListMember(txnQueue, i, |txnQueue|);
      ws, done := ws0, done0;
      for j := 0 to |l|
        invariant Grows() && circ.outputs == old(circ.outputs) && HoldVals(selected, Bits(sel))
        invariant Values()[neg] == B(!solvent[i]) && Values()[pos] == B(solvent[i])
        invariant Served(ws, KeptSet(q, sel, solvent), done) && done0 <= done
        invariant forall a :: 0 <= a < j ==> l[a] in done
      {
        var w := ServePayment(l, j, selected, neg, pos, q, sel, solvent, i);
        ws := ws[l[j] := w];
        done := done + {l[j]};
      }
      forall k: nat | k < |q| && q[k].src == i ensures k in done {
        assert k in l;
      }
    }

    /** The new selection vector, bank by bank. */
    method NewSelected(selected: seq<Wire>, neg: seq<Wire>, pos: seq<Wire>,
                       ghost q: seq<Payment>, ghost sel: seq<bool>, ghost solvent: seq<bool>)
      returns (ws: seq<Wire>)
      requires Valid() && |q| == |sel| == |txnQueue| && InRange(q, |solvent|) && |solvent| == numBanks
      requires forall k :: 0 <= k < |q| ==> q[k].src == txnQueue[k].src
      requires HoldVals(selected, Bits(sel)) && HoldVals(neg, Bits(Not(solvent))) && HoldVals(pos, Bits(solvent))
      modifies circ
      ensures Grows() && circ.outputs == old(circ.outputs)
      ensures HoldVals(ws, Bits(KeptSet(q, sel, solvent)))
    {
      hide EvalAll, Kept, NextOf, SrcList;
      var bySrc := GroupBySource();
      ws := seq(|txnQueue|, _ => 0);
      ghost var done: set<nat> := {};
      for i := 0 to numBanks
        invariant Grows() && circ.outputs == old(circ.outputs)
        invariant HoldVals(selected, Bits(sel)) && HoldVals(neg, Bits(Not(solvent))) && HoldVals(pos, Bits(solvent))
        invariant Served(ws, KeptSet(q, sel, solvent), done)
        invariant forall k: nat :: k < |q| && q[k].src < i ==> k in done
      {
        ws, done := ServeBank(i, bySrc[i], selected, neg[i], pos[i], ws, done, q, sel, solvent);
      }
    }

    /** The balances' signs, their complements and their product. */
    method Solvency(nb: seq<Wire>, ghost ints: seq<int>) returns (neg: seq<Wire>, pos: seq<Wire>, all: Wire)
      requires Valid() && HoldsMod(nb, ints) && m > 2 && |nb| > 0
      modifies circ
      ensures Grows() && circ.outputs == old(circ.outputs) + [all]
      ensures HoldVals(neg, Bits(Not(Solvent(m, ints)))) && HoldVals(pos, Bits(Solvent(m, ints)))
      ensures all < |circ.gates| && Values()[all] == B(AllTrue(Solvent(m, ints), |ints|))
    {
      hide EvalAll, Prod, AllTrue;
      neg := Signs(nb, ints);
      pos := Complements(neg, Negative(m, ints));
      NotNot(Negative(m, ints));
      assert ValuesOf(pos) == Bits(Solvent(m, ints));
      all := TreeMult(pos);
      ProdBits(Solvent(m, ints), |ints|);
      Z.ModUnique(m, B(AllTrue(Solvent(m, ints), |ints|)), 0, B(AllTrue(Solvent(m, ints), |ints|)));
      var ok := circ.SetAsOutput(all);
    }

    /** The second output: 1 when the round leaves nothing selected. */
    method Deadlock(ws: seq<Wire>, ghost kept: seq<bool>) returns (w: Wire)
      requires Valid() && |ws| > 0 && HoldVals(ws, Bits(kept))
      modifies circ
      ensures Grows() && circ.outputs == old(circ.outputs) + [w] && HoldVals(ws, Bits(kept))
      ensures w < |circ.gates| && Values()[w] == B(Count(kept, |kept|) == 0)
    {
      hide EvalAll, Prod, AllTrue, Count;
      var left := Complements(ws, kept);
      assert ValuesOf(left) == Bits(Not(kept));
      w := TreeMult(left);
      ProdBits(Not(kept), |kept|);
      NoneKept(kept, |kept|);
      Z.ModUnique(m, B(Count(kept, |kept|) == 0), 0, B(Count(kept, |kept|) == 0));
      var ok := circ.SetAsOutput(w);
    }

    /** With selectors that are bits, the balance gates hold the balances of the netting rule. */
    method RoundBalances(balance: seq<Wire>, selected: seq<Wire>, ghost sel: seq<bool>)
      returns (nb: seq<Wire>, ghost ints: seq<int>)
      requires Valid() && |balance| == numBanks && Below(balance, |circ.gates|)
      requires |sel| == |txnQueue| && HoldVals(selected, Bits(sel))
      modifies circ
      ensures Grows() && circ.outputs == old(circ.outputs) && HoldsMod(nb, ints) && |ints| == numBanks
      ensures ints == Netted(old(ValuesOf(balance)), old(Queue()), sel)
    {
      ghost var bal, q := ValuesOf(balance), Queue();
      hide EvalAll, Balance;
      assert forall k :: 0 <= k < |q| ==> q[k].amt < m && Values()[selected[k]] == B(sel[k]);
      ghost var f;
      nb, f := NewBalances(balance, selected);
      ints := Balances(bal, f);
      FilteredBalances(m, bal, q, f, sel);
    }

    /** The wires and outputs of a round that leaves the payments `kept`. */
    ghost predicate RoundIs(ws: seq<Wire>, solvent: Wire, deadlock: Wire, kept: seq<bool>, all: bool)
      reads this, circ
      requires Valid()
    {
      && HoldVals(ws, Bits(kept)) && solvent < |circ.gates| && deadlock < |circ.gates|
      && Values()[solvent] == B(all) && Values()[deadlock] == B(Count(kept, |kept|) == 0)
    }

    /** One round as gates: the new selection, and outputs that say whether everybody was
        solvent and whether nothing is left, where a bank counts as solvent if the top bit of
        its balance's word is clear.  With balances the ring can hold this is the netting rule.
        It needs a bank and a payment. */
    method UpdateSelectedTransactions(balance: seq<Wire>, selected: seq<Wire>, ghost sel: seq<bool>)
      returns (ws: seq<Wire>, ghost solvent: Wire, ghost deadlock: Wire)
      requires Valid() && numBanks > 0 && |txnQueue| > 0 && m > 2
      requires |balance| == numBanks && Below(balance, |circ.gates|)
      requires |sel| == |txnQueue| && HoldVals(selected, Bits(sel))
      modifies circ
      ensures Grows() && circ.outputs == old(circ.outputs) + [solvent, deadlock]
      ensures var bal, q := old(ValuesOf(balance)), old(Queue());
        var clear := Solvent(m, Netted(bal, q, sel));
        RoundIs(ws, solvent, deadlock, KeptSet(q, sel, clear), AllTrue(clear, numBanks))
      ensures var bal, q := old(ValuesOf(balance)), old(Queue());
        TWO63 < m <= TWO64 && Representable(m, Netted(bal, q, sel)) ==>
          RoundIs(ws, solvent, deadlock, Update(bal, q, sel), Feasible(bal, q, sel))
    {
      hide EvalAll, Balance, Stays, Count, SrcList, NextOf, Feasible, AllTrue, Kept, Representable, Bit63;
      ghost var bal, q := ValuesOf(balance), Queue();
      var nb;
      ghost var ints;
      nb, ints := RoundBalances(balance, selected, sel);
      if TWO63 < m <= TWO64 && Representable(m, ints) {
        KeptIsUpdate(m, bal, q, sel);
      }
      var neg, pos;
      neg, pos, solvent := Solvency(nb, ints);
      ws := NewSelected(selected, neg, pos, q, sel, Solvent(m, ints));
      ghost var kept := KeptSet(q, sel, Solvent(m, ints));
      deadlock := Deadlock(ws, kept);
      assert RoundIs(ws, solvent, deadlock, kept, AllTrue(Solvent(m, ints), numBanks));
    }
  }
}
