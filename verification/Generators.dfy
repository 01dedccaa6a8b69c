/** The loops that build the prefix network and the product tree, gate by gate. */
module Generators {
  import opened Wrappers
  import opened Circuits
  import opened CircuitBuilder
  import opened Comparator
  import Z = ZMod

  // ---- one level of the prefix network -------------------------------------------------------------

  /** A gate number determines the position it serves. */
  lemma GateOfInjective(h: nat, pos: nat, q: nat, c: nat, i: nat)
    requires h > 0 && c < 4 && i < h && GateOf(h, pos) == 4 * (q * h + i) + c
    ensures pos == q * (4 * h) + c * h + i
  {
    var (q', c', i') := Split(h, pos);
    assert c' == c && q' * h + i' == q * h + i;
    Z.ModUnique(h, q * h + i, q, i);
    Z.ModUnique(h, q' * h + i', q', i');
  }

  lemma FourGatesAre(h: nat, q: nat, i: nat)
    requires i < h
    ensures GateOf(h, q * (4 * h) + i) == 4 * (q * h + i)
    ensures GateOf(h, q * (4 * h) + h + i) == 4 * (q * h + i) + 1
    ensures GateOf(h, q * (4 * h) + 2 * h + i) == 4 * (q * h + i) + 2
    ensures GateOf(h, q * (4 * h) + 3 * h + i) == 4 * (q * h + i) + 3
  {
    hide Split;
    SplitIs(h, q, 0, i);
    SplitIs(h, q, 1, i);
    SplitIs(h, q, 2, i);
    SplitIs(h, q, 3, i);
  }

  /** Gates number 4t .. 4t+3 serve place i of the four blocks of group q, and no other. */
  lemma FourGates(h: nat, q: nat, i: nat)
    requires i < h
    ensures GateOf(h, q * (4 * h) + i) == 4 * (q * h + i)
    ensures GateOf(h, q * (4 * h) + h + i) == 4 * (q * h + i) + 1
    ensures GateOf(h, q * (4 * h) + 2 * h + i) == 4 * (q * h + i) + 2
    ensures GateOf(h, q * (4 * h) + 3 * h + i) == 4 * (q * h + i) + 3
    ensures forall pos: nat :: 4 * (q * h + i) <= GateOf(h, pos) < 4 * (q * h + i) + 4 ==>
      pos in [q * (4 * h) + i, q * (4 * h) + h + i, q * (4 * h) + 2 * h + i, q * (4 * h) + 3 * h + i]
  {
    hide GateOf;
    FourGatesAre(h, q, i);
    var n, p := 4 * (q * h + i), q * (4 * h);
    forall pos: nat | n <= GateOf(h, pos) < n + 4
      ensures pos in [p + i, p + h + i, p + 2 * h + i, p + 3 * h + i]
    {
      GateOfInjective(h, pos, q, GateOf(h, pos) - n, i);
    }
  }

  /** The wires of the gates numbered below n are in place. */
  ghost predicate Wired(next: seq<Wire>, h: nat, base: nat, n: nat)
    requires h > 0
  {
    forall pos :: 0 <= pos < |next| && GateOf(h, pos) < n ==> next[pos] == base + GateOf(h, pos)
  }

  lemma WiredStep(next: seq<Wire>, h: nat, base: nat, q: nat, i: nat)
    requires i < h && q * (4 * h) + 4 * h <= |next| && Wired(next, h, base, 4 * (q * h + i))
    ensures var p, n := q * (4 * h), 4 * (q * h + i);
      Wired(next[p + i := base + n][p + h + i := base + n + 1][p + 2 * h + i := base + n + 2]
                [p + 3 * h + i := base + n + 3], h, base, n + 4)
  {
    hide GateOf, Wired;
    FourGates(h, q, i);
    var p, n := q * (4 * h), 4 * (q * h + i);
    WiredFour(next, h, base, n, p + i, p + h + i, p + 2 * h + i, p + 3 * h + i);
  }

  lemma WiredFour(next: seq<Wire>, h: nat, base: nat, n: nat, a: nat, b: nat, c: nat, d: nat)
    requires h > 0 && a < |next| && b < |next| && c < |next| && d < |next| && Wired(next, h, base, n)
    requires GateOf(h, a) == n && GateOf(h, b) == n + 1 && GateOf(h, c) == n + 2 && GateOf(h, d) == n + 3
    requires forall pos: nat :: n <= GateOf(h, pos) < n + 4 ==> pos in [a, b, c, d]
    ensures Wired(next[a := base + n][b := base + n + 1][c := base + n + 2][d := base + n + 3], h, base, n + 4)
  {
    hide GateOf, Wired;
    var next1 := next[a := base + n];
    var next2 := next1[b := base + n + 1];
    var next3 := next2[c := base + n + 2];
    WiredOne(next, h, base, n, a);
    WiredOne(next1, h, base, n + 1, b);
    WiredOne(next2, h, base, n + 2, c);
    WiredOne(next3, h, base, n + 3, d);
  }

  /** Gate n serves one place only. */
  lemma WiredOne(next: seq<Wire>, h: nat, base: nat, n: nat, at: nat)
    requires h > 0 && at < |next| && Wired(next, h, base, n) && GateOf(h, at) == n
    requires forall pos: nat :: GateOf(h, pos) == n ==> pos == at
    ensures Wired(next[at := base + n], h, base, n + 1)
  {
    hide GateOf;
  }

  lemma WiredAll(next: seq<Wire>, h: nat, base: nat)
    requires h > 0 && |next| % (4 * h) == 0 && Wired(next, h, base, |next|)
    ensures next == LevelWires(|next|, h, base)
  {
    hide GateOf;
    forall pos | 0 <= pos < |next| ensures next[pos] == base + GateOf(h, pos) {
      GateOfBound(|next|, h, pos);
    }
  }

  lemma FourMore(gs: seq<Gate>, n: nat)
    requires n + 4 <= |gs|
    ensures gs[..n + 4] == gs[..n] + [gs[n]] + [gs[n + 1]] + [gs[n + 2]] + [gs[n + 3]]
  {
  }

  lemma FourLevelGates(cur: seq<Wire>, h: nat, q: nat, i: nat)
    requires h > 0 && i < h && |cur| % (4 * h) == 0 && q * (4 * h) + 4 * h <= |cur|
    ensures var n, p := 4 * (q * h + i), q * (4 * h);
      && n + 4 <= |cur|
      && LevelGates(cur, h)[..n + 4] == LevelGates(cur, h)[..n] + [JoinGate(cur, h, p, i, 0)]
           + [JoinGate(cur, h, p, i, 1)] + [JoinGate(cur, h, p, i, 2)] + [JoinGate(cur, h, p, i, 3)]
  {
    LevelGateAt(cur, h, q, 0, i);
    LevelGateAt(cur, h, q, 1, i);
    LevelGateAt(cur, h, q, 2, i);
    LevelGateAt(cur, h, q, 3, i);
    FourMore(LevelGates(cur, h), 4 * (q * h + i));
  }

  /** Place i of one group of four blocks: four gates. */
  method JoinPlace(c: Circuit, cur: seq<Wire>, h: nat, j: nat, i: nat) returns (w: Wire)
    requires c.Valid() && i < h && j >= 1 && (j - 1) * (4 * h) + 4 * h <= |cur| && Below(cur, |c.gates|)
    modifies c
    ensures c.Valid() && c.outputs == old(c.outputs) && w == |old(c.gates)|
    ensures var p := (j - 1) * (4 * h);
      c.gates == old(c.gates) + [JoinGate(cur, h, p, i, 0)] + [JoinGate(cur, h, p, i, 1)]
        + [JoinGate(cur, h, p, i, 2)] + [JoinGate(cur, h, p, i, 3)]
  {
    hide WellFormed;
    var p := (j - 1) * (4 * h);
    var q, r, s := p + h, p + 2 * h, p + 3 * h;
    var w0 := c.AddConstOpGate(KConstAdd, cur[p + i], 0);
    w := w0.value;
    var w1 := c.AddGate2(KMul, cur[q - 1], cur[q + i]);
    var w2 := c.AddGate3(KMul3, cur[q - 1], cur[r - 1], cur[r + i]);
    var w3 := c.AddGate4(KMul4, cur[q - 1], cur[r - 1], cur[s - 1], cur[s + i]);
  }

  /** One group of four blocks. */
  method PrefixGroup(c: Circuit, cur: seq<Wire>, h: nat, j: nat, next0: seq<Wire>, ghost start: seq<Gate>)
    returns (next: seq<Wire>)
    requires c.Valid() && h > 0 && j >= 1 && |cur| % (4 * h) == 0 && (j - 1) * (4 * h) + 4 * h <= |cur| == |next0|
    requires Below(cur, |start|) && 4 * ((j - 1) * h) <= |cur|
    requires c.gates == start + LevelGates(cur, h)[..4 * ((j - 1) * h)]
    requires Wired(next0, h, |start|, 4 * ((j - 1) * h))
    modifies c
    ensures c.Valid() && c.outputs == old(c.outputs) && |next| == |cur| && 4 * ((j - 1) * h + h) <= |cur|
    ensures c.gates == start + LevelGates(cur, h)[..4 * ((j - 1) * h + h)]
    ensures Wired(next, h, |start|, 4 * ((j - 1) * h + h))
  {
    hide GateOf, JoinGate, LevelGate, WellFormed, Wired;
    ghost var gs, n := LevelGates(cur, h), (j - 1) * h;
    next := next0;
    for i := 0 to h
      invariant c.Valid() && c.outputs == old(c.outputs) && |next| == |cur| && 4 * (n + i) <= |cur|
      invariant c.gates == start + gs[..4 * (n + i)] && Wired(next, h, |start|, 4 * (n + i))
    {
      FourLevelGates(cur, h, j - 1, i);
      WiredStep(next, h, |start|, j - 1, i);
      var w := JoinPlace(c, cur, h, j, i);
      var p := (j - 1) * (4 * h);
      next := next[p + i := w][p + h + i := w + 1][p + 2 * h + i := w + 2][p + 3 * h + i := w + 3];
    }
  }

  lemma GroupStep(j: nat, groups: nat, h: nat)
    requires 1 <= j <= groups
    ensures (j - 1) * (4 * h) + 4 * h <= groups * (4 * h)
    ensures (j - 1) * h + h == j * h && 4 * (j * h) == j * (4 * h) && 4 * ((j - 1) * h) == (j - 1) * (4 * h)
  {
    Monotone(j, groups, 4 * h);
    assert (j - 1) * (4 * h) + 4 * h == j * (4 * h);
  }

  /** One level: every group of four blocks is joined. */
  method PrefixLevel(c: Circuit, cur: seq<Wire>, h: nat) returns (next: seq<Wire>)
    requires c.Valid() && h > 0 && |cur| % (4 * h) == 0 && Below(cur, |c.gates|)
    modifies c
    ensures c.Valid() && c.outputs == old(c.outputs)
    ensures c.gates == old(c.gates) + LevelGates(cur, h)
    ensures next == LevelWires(|cur|, h, |old(c.gates)|)
  {
    hide GateOf, JoinGate, LevelGate, WellFormed, Wired;
    ghost var start, gs := c.gates, LevelGates(cur, h);
    next := seq(|cur|, _ => 0);
    var groups := |cur| / (4 * h);
    DivMod(|cur|, 4 * h);
    NothingWired(next, h, |start|);
    assert 0 * h == 0;
    for j := 1 to groups + 1
      invariant c.Valid() && c.outputs == old(c.outputs) && |next| == |cur| && 4 * ((j - 1) * h) <= |cur|
      invariant c.gates == start + gs[..4 * ((j - 1) * h)] && Wired(next, h, |start|, 4 * ((j - 1) * h))
    {
      GroupStep(j, groups, h);
      next := PrefixGroup(c, cur, h, j, next, start);
    }
    assert 4 * (groups * h) == groups * (4 * h);
    assert gs[..|cur|] == gs;
    WiredAll(next, h, |start|);
  }

  lemma NothingWired(next: seq<Wire>, h: nat, base: nat)
    requires h > 0
    ensures Wired(next, h, base, 0)
  {
  }

  // ---- the whole network ----------------------------------------------------------------------------

  method AddInputs(c: Circuit, n: nat) returns (ws: seq<Wire>)
    requires c.Valid()
    modifies c
    ensures c.Valid() && c.outputs == old(c.outputs) && c.gates == old(c.gates) + Inputs(n)
    ensures ws == From(|old(c.gates)|, n)
  {
    hide WellFormed;
    ghost var start := c.gates;
    ws := [];
    for i := 0 to n
      invariant c.Valid() && c.outputs == old(c.outputs) && c.gates == start + Inputs(i) && ws == From(|start|, i)
    {
      var w := c.NewInputWire();
      ws := ws + [w];
    }
  }

  /** The complement of every wire. */
  method AddComplements(c: Circuit, cur: seq<Wire>) returns (ws: seq<Wire>)
    requires c.Valid() && Below(cur, |c.gates|)
    modifies c
    ensures c.Valid() && c.outputs == old(c.outputs) && c.gates == old(c.gates) + Complements(cur)
    ensures ws == From(|old(c.gates)|, |cur|)
  {
    hide WellFormed;
    ghost var start := c.gates;
    ws := [];
    for i := 0 to |cur|
      invariant c.Valid() && c.outputs == old(c.outputs) && c.gates == start + Complements(cur)[..i]
      invariant ws == From(|start|, i)
    {
      var w := c.AddConstOpGate(KConstAdd, cur[i], 1);
      ws := ws + [w.value];
    }
  }

  /** One lane: the first complement, then sums of neighbours. */
  method AddLaneMarkers(c: Circuit, wv: seq<Wire>, base: nat, lanes: nat, i: nat, ws0: seq<Wire>,
                        ghost start: seq<Gate>)
    returns (ws: seq<Wire>)
    requires c.Valid() && i < lanes && wv == From(base, K * lanes) && base + K * lanes == |start|
    requires c.gates == start + Markers(base, K * lanes)[..K * i] && ws0 == From(|start|, K * i)
    modifies c
    ensures c.Valid() && c.outputs == old(c.outputs)
    ensures c.gates == start + Markers(base, K * lanes)[..K * i + K] && ws == From(|start|, K * i + K)
  {
    hide WellFormed, TypeOf, From, Markers;
    ghost var ms := Markers(base, K * lanes);
    ws := ws0;
    for j := 0 to K
      invariant c.Valid() && c.outputs == old(c.outputs) && c.gates == start + ms[..K * i + j]
      invariant ws == From(|start|, K * i + j)
    {
      Z.ModUnique(K, K * i + j, i, j);
      ghost var before := c.gates;
      var w;
      if j == 0 {
        w := c.AddConstOpGate(KConstAdd, wv[K * i], 0);
      } else {
        w := c.AddGate2(KAdd, wv[K * i + j], wv[K * i + j - 1]);
      }
      assert c.gates == before + [ms[K * i + j]];
      OneMore(start, ms, K * i + j);
      FromMore(|start|, K * i + j);
      ws := ws + [w.value];
    }
  }

  lemma OneMore(start: seq<Gate>, ms: seq<Gate>, n: nat)
    requires n < |ms|
    ensures start + ms[..n + 1] == start + ms[..n] + [ms[n]]
  {
  }

  lemma FromMore(base: nat, n: nat)
    ensures From(base, n + 1) == From(base, n) + [base + n]
  {
  }

  method AddMarkers(c: Circuit, wv: seq<Wire>, base: nat, lanes: nat) returns (ws: seq<Wire>)
    requires c.Valid() && wv == From(base, K * lanes) && base + K * lanes == |c.gates|
    modifies c
    ensures c.Valid() && c.outputs == old(c.outputs) && c.gates == old(c.gates) + Markers(base, K * lanes)
    ensures ws == From(|old(c.gates)|, K * lanes)
  {
    hide WellFormed;
    ghost var start, ms := c.gates, Markers(base, K * lanes);
    ws := [];
    for i := 0 to lanes
      invariant c.Valid() && c.outputs == old(c.outputs) && c.gates == start + ms[..K * i] && ws == From(|start|, K * i)
    {
      ws := AddLaneMarkers(c, wv, base, lanes, i, ws, start);
    }
    assert ms[..K * lanes] == ms;
  }

  /** The inputs and the three levels. */
  function FirstHalf(lanes: nat): seq<Gate> {
    var n := K * lanes;
    Sizes(lanes);
    Inputs(2 * n)
      + LevelGates(From(0, n), 1)
      + LevelGates(LevelWires(n, 1, 2 * n), 4)
      + LevelGates(LevelWires(n, 4, 3 * n), 16)
  }

  method GenerateLevels(lanes: nat) returns (c: Circuit, inpD: seq<Wire>, l3: seq<Wire>)
    ensures fresh(c) && c.Valid() && c.outputs == [] && c.gates == FirstHalf(lanes) && |c.gates| == 5 * (K * lanes)
    ensures inpD == From(K * lanes, K * lanes) && l3 == LevelWires(K * lanes, 16, 4 * (K * lanes))
    ensures Below(l3, |c.gates|)
  {
    hide WellFormed, GateOf, LevelGate;
    var n := K * lanes;
    Sizes(lanes);
    c := new Circuit();
    var input := AddInputs(c, n);
    inpD := AddInputs(c, n);
    assert c.gates == Inputs(2 * n);
    var l1 := PrefixLevel(c, input, 1);
    LevelWiresBelow(n, 1, 2 * n);
    var l2 := PrefixLevel(c, l1, 4);
    LevelWiresBelow(n, 4, 3 * n);
    l3 := PrefixLevel(c, l2, 16);
    LevelWiresBelow(n, 16, 4 * n);
  }

  lemma HalvesMeet(lanes: nat)
    ensures var n := K * lanes;
      PrefixOrGates(lanes)
        == FirstHalf(lanes) + Complements(LevelWires(n, 16, 4 * n)) + Markers(5 * n, n) + [Selector(n)]
  {
    hide LevelGate, GateOf;
  }

  /** The network for any number of lanes: its gates, in this order, and its one output. */
  method GenerateParaPrefixOR(lanes: nat) returns (c: Circuit)
    ensures fresh(c) && c.Valid() && c.gates == PrefixOrGates(lanes) && c.outputs == [7 * (K * lanes)]
  {
    hide WellFormed, GateOf, LevelGate, FirstHalf, PrefixOrGates;
    var n := K * lanes;
    var inpD, l3;
    c, inpD, l3 := GenerateLevels(lanes);
    var wv := AddComplements(c, l3);
    var wz := AddMarkers(c, wv, 5 * n, lanes);
    var res := c.AddGateSimd(KDotprod, Zeros(n) + wz, Zeros(n) + inpD);
    var ok := c.SetAsOutput(res.value);
    HalvesMeet(lanes);
  }
}
