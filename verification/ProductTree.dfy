/** The radix-4 product tree, the zero test's last step. */
module ProductTree {
  import opened Wrappers
  import opened Circuits
  import opened CircuitBuilder
  import G = GridlockCircuit
  import Z = ZMod

  function Pow4(n: nat): (r: nat)
    ensures r >= 1
  {
    if n == 0 then 1 else 4 * Pow4(n - 1)
  }

  /** The first k wires of ws multiply to the product of the first n inputs' first 4j ones. */
  ghost predicate Covers(gates: seq<Gate>, m: nat, x: map<Wire, int>, next: seq<Wire>, cur: seq<Wire>, k: nat)
    requires m > 1 && WellFormed(gates)
  {
    && Below(next, |gates|) && Below(cur, |gates|) && k <= |cur|
    && Z.Cong(m, G.Prod(Outputs(m, gates, next, x), |next|), G.Prod(Outputs(m, gates, cur, x), k))
  }

  ghost predicate AllCover(gates: seq<Gate>, next: seq<Wire>, cur: seq<Wire>, k: nat)
    requires WellFormed(gates)
  {
    forall m: nat, x: map<Wire, int> :: m > 1 ==> Covers(gates, m, x, next, cur, k)
  }

  lemma OutputsGrow(m: nat, gates: seq<Gate>, g: Gate, ws: seq<Wire>, x: map<Wire, int>)
    requires m > 1 && WellFormed(gates) && GateOk(g, |gates|) && Below(ws, |gates|)
    ensures WellFormed(gates + [g]) && Outputs(m, gates + [g], ws, x) == Outputs(m, gates, ws, x)
  {
    hide EvalAll;
    EvalAllPush(m, gates, g, x);
  }

  lemma CoversGrows(gates: seq<Gate>, g: Gate, m: nat, x: map<Wire, int>, next: seq<Wire>, cur: seq<Wire>, k: nat)
    requires m > 1 && WellFormed(gates) && GateOk(g, |gates|) && Covers(gates, m, x, next, cur, k)
    ensures WellFormed(gates + [g]) && Covers(gates + [g], m, x, next, cur, k)
  {
    hide Outputs, Z.Cong, G.Prod, WellFormed;
    OutputsGrow(m, gates, g, next, x);
    OutputsGrow(m, gates, g, cur, x);
  }

  lemma AllCoverGrows(gates: seq<Gate>, g: Gate, next: seq<Wire>, cur: seq<Wire>, k: nat)
    requires WellFormed(gates) && GateOk(g, |gates|) && AllCover(gates, next, cur, k)
    ensures WellFormed(gates + [g]) && AllCover(gates + [g], next, cur, k)
  {
    hide Covers, GateOk;
    assert WellFormed(gates + [g]) by {
      PushOk(gates, g);
    }
    forall m: nat, x: map<Wire, int> | m > 1 ensures Covers(gates + [g], m, x, next, cur, k) {
      assert Covers(gates, m, x, next, cur, k);
      CoversGrows(gates, g, m, x, next, cur, k);
    }
  }

  lemma PushOk(gates: seq<Gate>, g: Gate)
    requires WellFormed(gates) && GateOk(g, |gates|)
    ensures WellFormed(gates + [g])
  {
  }

  /** Four factors, multiplied as the gate does. */
  lemma QuadStep(m: nat, next: seq<int>, cur: seq<int>, k: nat, v: int)
    requires m > 0 && k + 4 <= |cur| && Z.Cong(m, G.Prod(next, |next|), G.Prod(cur, k))
    requires v == Z.Mul(m, Z.Mul(m, Z.Mul(m, cur[k], cur[k + 1]), cur[k + 2]), cur[k + 3])
    ensures Z.Cong(m, G.Prod(next + [v], |next| + 1), G.Prod(cur, k + 4))
  {
    hide Z.Cong;
    var a, b, c, d, p := cur[k], cur[k + 1], cur[k + 2], cur[k + 3], G.Prod(cur, k);
    G.ProdPrefix(next + [v], next, |next|);
    Z.CongMod(m, a * b);
    Z.CongScale(m, Z.Mul(m, a, b), a * b, c);
    Z.CongMod(m, Z.Mul(m, a, b) * c);
    Z.CongTrans(m, Z.Mul(m, Z.Mul(m, a, b), c), Z.Mul(m, a, b) * c, a * b * c);
    Z.CongScale(m, Z.Mul(m, Z.Mul(m, a, b), c), a * b * c, d);
    Z.CongMod(m, Z.Mul(m, Z.Mul(m, a, b), c) * d);
    Z.CongTrans(m, v, Z.Mul(m, Z.Mul(m, a, b), c) * d, a * b * c * d);
    Z.CongMul(m, G.Prod(next, |next|), p, v, a * b * c * d);
    FourFactors(cur, k);
    assert p * (a * b * c * d) == p * a * b * c * d;
  }

  lemma FourFactors(cur: seq<int>, k: nat)
    requires k + 4 <= |cur|
    ensures G.Prod(cur, k + 4) == G.Prod(cur, k) * cur[k] * cur[k + 1] * cur[k + 2] * cur[k + 3]
  {
    assert G.Prod(cur, k + 1) == G.Prod(cur, k) * cur[k];
    assert G.Prod(cur, k + 2) == G.Prod(cur, k + 1) * cur[k + 1];
    assert G.Prod(cur, k + 3) == G.Prod(cur, k + 2) * cur[k + 2];
    assert G.Prod(cur, k + 4) == G.Prod(cur, k + 3) * cur[k + 3];
  }

  lemma QuadGate(gates: seq<Gate>, m: nat, x: map<Wire, int>, next: seq<Wire>, cur: seq<Wire>, k: nat)
    requires m > 1 && WellFormed(gates) && k + 4 <= |cur| && Covers(gates, m, x, next, cur, k)
    ensures var g := Mul4(cur[k], cur[k + 1], cur[k + 2], cur[k + 3]);
      && GateOk(g, |gates|) && WellFormed(gates + [g])
      && Covers(gates + [g], m, x, next + [|gates|], cur, k + 4)
  {
    hide Z.Cong, G.Prod, EvalAll, Z.Mul;
    var g := Mul4(cur[k], cur[k + 1], cur[k + 2], cur[k + 3]);
    CoversGrows(gates, g, m, x, next, cur, k);
    var gs := gates + [g];
    EvalAllAt(m, gs, x, |gates|);
    var vs := EvalAll(m, gs, x);
    var nv, cv := Outputs(m, gs, next, x), Outputs(m, gs, cur, x);
    QuadStep(m, nv, cv, k, vs[|gates|]);
    assert Outputs(m, gs, next + [|gates|], x) == nv + [vs[|gates|]];
  }

  lemma AllQuad(gates: seq<Gate>, next: seq<Wire>, cur: seq<Wire>, k: nat)
    requires WellFormed(gates) && k + 4 <= |cur| && AllCover(gates, next, cur, k)
    ensures var g := Mul4(cur[k], cur[k + 1], cur[k + 2], cur[k + 3]);
      && GateOk(g, |gates|) && WellFormed(gates + [g])
      && AllCover(gates + [g], next + [|gates|], cur, k + 4)
  {
    hide Covers, WellFormed;
    var none: map<Wire, int> := map[];
    assert Covers(gates, 2, none, next, cur, k);
    QuadGate(gates, 2, none, next, cur, k);
    var gs, more, k4 := gates + [Mul4(cur[k], cur[k + 1], cur[k + 2], cur[k + 3])], next + [|gates|], k + 4;
    forall m: nat, x: map<Wire, int> | m > 1 ensures Covers(gs, m, x, more, cur, k4) {
      assert Covers(gates, m, x, next, cur, k);
      QuadGate(gates, m, x, next, cur, k);
    }
  }

  lemma CoverNothing(gates: seq<Gate>, cur: seq<Wire>)
    requires WellFormed(gates) && Below(cur, |gates|)
    ensures AllCover(gates, [], cur, 0)
  {
  }

  lemma CoverSelf(gates: seq<Gate>, cur: seq<Wire>)
    requires WellFormed(gates) && Below(cur, |gates|)
    ensures AllCover(gates, cur, cur, |cur|)
  {
  }

  lemma CoverTrans(gates: seq<Gate>, a: seq<Wire>, b: seq<Wire>, c: seq<Wire>)
    requires WellFormed(gates) && AllCover(gates, a, b, |b|) && AllCover(gates, b, c, |c|)
    ensures AllCover(gates, a, c, |c|)
  {
    hide Outputs, G.Prod;
    forall m: nat, x: map<Wire, int> | m > 1 ensures Covers(gates, m, x, a, c, |c|) {
      assert Covers(gates, m, x, a, b, |b|) && Covers(gates, m, x, b, c, |c|);
    }
  }

  /** One level: groups of four are multiplied. */
  method MultLevel(c: Circuit, cur: seq<Wire>, quarter: nat, start: seq<Wire>) returns (next: seq<Wire>)
    requires c.Valid() && |cur| == 4 * quarter && AllCover(c.gates, cur, start, |start|) && Below(cur, |c.gates|)
    modifies c
    ensures c.Valid() && c.outputs == old(c.outputs) && |next| == quarter && Below(next, |c.gates|)
    ensures AllCover(c.gates, next, start, |start|)
    ensures |old(c.gates)| <= |c.gates| && c.gates[..|old(c.gates)|] == old(c.gates)
    ensures forall w :: |old(c.gates)| <= w < |c.gates| ==> !c.gates[w].Inp?
  {
    hide AllCover, WellFormed;
    next := [];
    CoverNothing(c.gates, cur);
    for j := 1 to quarter + 1
      invariant c.Valid() && c.outputs == old(c.outputs) && |next| == j - 1
      invariant Below(next, |c.gates|) && Below(cur, |c.gates|)
      invariant |old(c.gates)| <= |c.gates| && c.gates[..|old(c.gates)|] == old(c.gates)
      invariant forall w :: |old(c.gates)| <= w < |c.gates| ==> !c.gates[w].Inp?
      invariant AllCover(c.gates, next, cur, 4 * (j - 1)) && AllCover(c.gates, cur, start, |start|)
    {
      var g := Mul4(cur[4 * j - 4], cur[4 * j - 3], cur[4 * j - 2], cur[4 * j - 1]);
      AllQuad(c.gates, next, cur, 4 * (j - 1));
      AllCoverGrows(c.gates, g, cur, start, |start|);
      var w := c.Append(g);
      next := next + [w.value];
    }
    CoverTrans(c.gates, next, cur, start);
  }

  /** The tree over 4^levels inputs; the program builds it for levels = 3.  In every ring its
      output is the product of all inputs. */
  method GenerateMultK(levels: nat) returns (c: Circuit)
    ensures c.Valid() && |c.outputs| == 1
    ensures Pow4(levels) <= |c.gates| && forall w :: 0 <= w < |c.gates| ==> (c.gates[w].Inp? <==> w < Pow4(levels))
    ensures forall m: nat, x: map<Wire, int> :: m > 1 ==>
      Z.Cong(m, Outputs(m, c.gates, c.outputs, x)[0],
             G.Prod(Outputs(m, c.gates, Iota(Pow4(levels)), x), Pow4(levels)))
  {
    var k := Pow4(levels);
    c := new Circuit();
    hide WellFormed, AllCover, Pow4, G.Prod, EvalAll;
    var cur: seq<Wire> := [];
    for i := 0 to k
      invariant c.Valid() && fresh(c) && c.outputs == [] && c.gates == seq(i, _ => Inp) && cur == Iota(i)
    {
      var w := c.NewInputWire();
      cur := cur + [w];
    }
    ghost var start := cur;
    CoverSelf(c.gates, cur);
    for level := 1 to levels + 1
      invariant c.Valid() && fresh(c) && c.outputs == [] && |cur| == Pow4(levels - (level - 1)) && Below(cur, |c.gates|)
      invariant k <= |c.gates| && forall w :: 0 <= w < |c.gates| ==> (c.gates[w].Inp? <==> w < k)
      invariant AllCover(c.gates, cur, Iota(k), k)
    {
      Pow4Step(levels - (level - 1));
      cur := MultLevel(c, cur, Pow4(levels - level), Iota(k));
    }
    Pow4Zero();
    var ok := c.SetAsOutput(cur[0]);
    assert c.outputs == cur;
    CoverOne(c.gates, cur, Iota(k));
  }

  lemma Pow4Step(n: nat)
    requires n > 0
    ensures Pow4(n) == 4 * Pow4(n - 1)
  {
  }

  lemma Pow4Zero()
    ensures Pow4(0) == 1
  {
  }

  lemma CoverOne(gates: seq<Gate>, cur: seq<Wire>, start: seq<Wire>)
    requires WellFormed(gates) && |cur| == 1 && Below(cur, |gates|) && Below(start, |gates|)
      && AllCover(gates, cur, start, |start|)
    ensures forall m: nat, x: map<Wire, int> :: m > 1 ==>
      Z.Cong(m, Outputs(m, gates, cur, x)[0], G.Prod(Outputs(m, gates, start, x), |start|))
  {
    forall m: nat, x: map<Wire, int> | m > 1
      ensures Z.Cong(m, Outputs(m, gates, cur, x)[0], G.Prod(Outputs(m, gates, start, x), |start|))
    {
      assert Covers(gates, m, x, cur, start, |start|);
      var s := Outputs(m, gates, cur, x);
      assert G.Prod(s, 1) == s[0];
    }
  }
}
