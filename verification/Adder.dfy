/** The parallel-prefix adder: group propagate and group generate wires are joined until every
    position spans back to bit 0; the sum bits follow.  A pruned sweep yields the top bit only. */
module PrefixAdder {
  import opened Wrappers
  import opened Circuits
  import opened CircuitBuilder
  import Z = ZMod

  function Pow2(n: nat): (r: nat)
    ensures r >= 1
  {
    if n == 0 then 1 else 2 * Pow2(n - 1)
  }

  // ---- propagate, generate and carries ---------------------------------------------------------

  predicate Bits(a: seq<int>, b: seq<int>) {
    |a| == |b| && Reduced(2, a) && Reduced(2, b)
  }

  /** Positions lo..hi-1 hand an incoming carry through. */
  function Propagate(a: seq<int>, b: seq<int>, lo: nat, hi: nat): (r: int)
    requires Bits(a, b) && hi <= |a|
    ensures r == 0 || r == 1
  {
    if hi <= lo then 1 else Propagate(a, b, lo, hi - 1) * ((a[hi - 1] + b[hi - 1]) % 2)
  }

  /** The carry out of positions lo..hi-1 when none comes in, by the schoolbook rule. */
  function Carry(a: seq<int>, b: seq<int>, lo: nat, hi: nat): (r: int)
    requires Bits(a, b) && hi <= |a|
    ensures r == 0 || r == 1
  {
    if hi <= lo then 0 else if a[hi - 1] + b[hi - 1] + Carry(a, b, lo, hi - 1) >= 2 then 1 else 0
  }

  lemma {:induction false} PropagateSplit(a: seq<int>, b: seq<int>, lo: nat, mid: nat, hi: nat)
    requires Bits(a, b) && lo <= mid <= hi <= |a|
    ensures Propagate(a, b, lo, hi) == Propagate(a, b, lo, mid) * Propagate(a, b, mid, hi)
  {
    if mid < hi {
      PropagateSplit(a, b, lo, mid, hi - 1);
    }
  }

  /** Joining two groups: the upper one generates, or hands the lower one's carry through,
      and never both. */
  lemma {:induction false} CarrySplit(a: seq<int>, b: seq<int>, lo: nat, mid: nat, hi: nat)
    requires Bits(a, b) && lo <= mid <= hi <= |a|
    ensures Carry(a, b, lo, hi) == Carry(a, b, mid, hi) + Propagate(a, b, mid, hi) * Carry(a, b, lo, mid)
    ensures Propagate(a, b, mid, hi) == 0 || Carry(a, b, mid, hi) == 0
  {
    if mid < hi {
      CarrySplit(a, b, lo, mid, hi - 1);
    }
  }

  /** The number whose binary digits, least significant first, are s[..n]. */
  function Num(s: seq<int>, n: nat): int
    requires n <= |s|
  {
    if n == 0 then 0 else Num(s, n - 1) + s[n - 1] * Pow2(n - 1)
  }

  lemma {:induction false} NumBound(s: seq<int>, n: nat)
    requires n <= |s| && Reduced(2, s)
    ensures 0 <= Num(s, n) < Pow2(n)
  {
    if n > 0 {
      NumBound(s, n - 1);
    }
  }

  /** Bit by bit, s is the sum of a and b with the carries from bit 0. */
  ghost predicate SumBits(a: seq<int>, b: seq<int>, s: seq<int>, n: nat)
    requires Bits(a, b) && n <= |a| && n <= |s|
  {
    forall i :: 0 <= i < n ==> s[i] == (a[i] + b[i] + Carry(a, b, 0, i)) % 2
  }

  lemma {:induction false} SumIsNumber(a: seq<int>, b: seq<int>, s: seq<int>, n: nat)
    requires Bits(a, b) && n <= |a| && n <= |s| && SumBits(a, b, s, n)
    ensures Num(s, n) + Carry(a, b, 0, n) * Pow2(n) == Num(a, n) + Num(b, n)
  {
    if n > 0 {
      hide Reduced;
      SumIsNumber(a, b, s, n - 1);
      DigitSum(a[n - 1], b[n - 1], Carry(a, b, 0, n - 1), s[n - 1], Carry(a, b, 0, n), Pow2(n - 1));
      assert Num(s, n) + Carry(a, b, 0, n) * Pow2(n) == Num(a, n) + Num(b, n);
    }
  }

  lemma DigitSum(a: int, b: int, carry: int, s: int, next: int, q: int)
    requires a + b + carry == s + 2 * next
    ensures s * q + next * (2 * q) == a * q + b * q + carry * q
  {
    assert (a + b + carry) * q == (s + 2 * next) * q;
  }

  /** The sum modulo 2^n, and its top bit. */
  lemma SumModulo(a: seq<int>, b: seq<int>, s: seq<int>, n: nat)
    requires Bits(a, b) && 0 < n <= |a| && n <= |s| && SumBits(a, b, s, n)
    ensures Num(s, n) == (Num(a, n) + Num(b, n)) % Pow2(n)
    ensures s[n - 1] == (Num(a, n) + Num(b, n)) / Pow2(n - 1) % 2
  {
    SumIsNumber(a, b, s, n);
    NumPrefix(s, n - 1, n);
    NumPrefix(s, n, n);
    NumBound(s[..n], n - 1);
    NumBound(s[..n], n);
    hide Reduced, SumBits, Carry, Bits;
    var q := Pow2(n - 1);
    assert Num(s, n) == Num(s, n - 1) + s[n - 1] * q && Pow2(n) == 2 * q;
    hide Num, Pow2;
    TopDigit(Num(a, n) + Num(b, n), Carry(a, b, 0, n), s[n - 1], Num(s, n - 1), q);
  }

  lemma TopDigit(v: int, c: int, d: int, low: int, q: nat)
    requires v == low + d * q + c * (2 * q) && 0 <= low < q && 0 <= d < 2
    ensures v % (2 * q) == low + d * q
    ensures v / q % 2 == d
  {
    assert c * (2 * q) == 2 * c * q;
    assert (2 * c + d) * q == 2 * c * q + d * q;
    assert d * q <= q;
    Z.ModUnique(2 * q, v, c, low + d * q);
    Z.ModUnique(q, v, 2 * c + d, low);
    Z.ModUnique(2, 2 * c + d, c, d);
  }

  lemma {:induction false} NumPrefix(s: seq<int>, n: nat, k: nat)
    requires n <= k <= |s|
    ensures Num(s, n) == Num(s[..k], n)
  {
    if n > 0 {
      NumPrefix(s, n - 1, k);
    }
  }

  // ---- the wires -----------------------------------------------------------------------------------

  /** For the inputs x: wires ps[j] and gs[j] hold propagate and carry of starts[j]..j. */
  ghost predicate Spans(gates: seq<Gate>, n: nat, x: map<Wire, int>, ps: seq<Wire>, gs: seq<Wire>, starts: seq<nat>)
    requires WellFormed(gates)
  {
    && 2 * n <= |gates| && |ps| == n && |gs| == n && |starts| == n
    && var vs := EvalAll(2, gates, x);
       forall j :: 0 <= j < n ==> SpanAt(vs, n, j, ps[j], gs[j], starts[j])
  }

  ghost predicate SpanAt(vs: seq<int>, n: nat, j: nat, p: Wire, g: Wire, start: nat)
    requires Reduced(2, vs) && 2 * n <= |vs| && j < n
  {
    && start <= j && p < |vs| && g < |vs|
    && vs[p] == Propagate(vs[..n], vs[n..2 * n], start, j + 1)
    && vs[g] == Carry(vs[..n], vs[n..2 * n], start, j + 1)
  }

  /** The same for every assignment of the inputs. */
  ghost predicate AllSpans(gates: seq<Gate>, n: nat, ps: seq<Wire>, gs: seq<Wire>, starts: seq<nat>)
    requires WellFormed(gates)
  {
    forall x: map<Wire, int> :: Spans(gates, n, x, ps, gs, starts)
  }

  lemma SpanGrows(vs: seq<int>, ws: seq<int>, n: nat, j: nat, p: Wire, g: Wire, start: nat)
    requires Reduced(2, vs) && Reduced(2, ws) && 2 * n <= |vs| && j < n && vs <= ws
    requires SpanAt(vs, n, j, p, g, start)
    ensures SpanAt(ws, n, j, p, g, start)
  {
    assert ws[..n] == vs[..n] && ws[n..2 * n] == vs[n..2 * n];
  }

  /** The two joining formulas. */
  lemma JoinedSpan(vs: seq<int>, n: nat, t: nat, i: nat, ps: seq<Wire>, gs: seq<Wire>, s: nat, w: Wire)
    requires Reduced(2, vs) && 2 * n <= |vs| && |ps| == n && |gs| == n && t < i < n && w + 2 < |vs|
    requires SpanAt(vs, n, t, ps[t], gs[t], s) && SpanAt(vs, n, i, ps[i], gs[i], t + 1)
    requires vs[w] == Z.Mul(2, vs[ps[i]], vs[gs[t]])
    requires vs[w + 1] == Z.Add(2, vs[gs[i]], vs[w])
    requires vs[w + 2] == Z.Mul(2, vs[ps[i]], vs[ps[t]])
    ensures SpanAt(vs, n, i, w + 2, w + 1, s)
  {
    hide Carry, Propagate;
    var a, b := vs[..n], vs[n..2 * n];
    CarrySplit(a, b, s, t + 1, i + 1);
    PropagateSplit(a, b, s, t + 1, i + 1);
    assert vs[ps[i]] in {0, 1} && vs[gs[t]] in {0, 1} && vs[ps[t]] in {0, 1} && vs[gs[i]] in {0, 1};
  }

  function JoinGates(gates: seq<Gate>, ps: seq<Wire>, gs: seq<Wire>, t: nat, i: nat): seq<Gate>
    requires t < |ps| == |gs| && i < |ps|
  {
    gates + [Mul2(ps[i], gs[t])] + [Lin(false, gs[i], |gates|)] + [Mul2(ps[i], ps[t])]
  }

  lemma JoinGatesAre(gates: seq<Gate>, ps: seq<Wire>, gs: seq<Wire>, t: nat, i: nat)
    requires t < |ps| == |gs| && i < |ps|
    ensures JoinGates(gates, ps, gs, t, i)
         == gates + [Mul2(ps[i], gs[t])] + [Lin(false, gs[i], |gates|)] + [Mul2(ps[i], ps[t])]
  {
  }

  lemma JoinBounds(gates: seq<Gate>, n: nat, x: map<Wire, int>, ps: seq<Wire>, gs: seq<Wire>, starts: seq<nat>, i: nat)
    requires WellFormed(gates) && Spans(gates, n, x, ps, gs, starts) && i < n
    ensures 2 * n <= |gates| && |ps| == |gs| == n && ps[i] < |gates| && gs[i] < |gates|
  {
    hide Carry, Propagate, EvalAll;
    assert SpanAt(EvalAll(2, gates, x), n, i, ps[i], gs[i], starts[i]);
  }

  /** What the three gates of a join compute. */
  lemma JoinValues(gates: seq<Gate>, x: map<Wire, int>, ps: seq<Wire>, gs: seq<Wire>, t: nat, i: nat)
    requires WellFormed(gates) && t < |ps| == |gs| && i < |ps|
    requires ps[i] < |gates| && ps[t] < |gates| && gs[i] < |gates| && gs[t] < |gates|
    ensures WellFormed(JoinGates(gates, ps, gs, t, i))
    ensures var vs, w := EvalAll(2, JoinGates(gates, ps, gs, t, i), x), |gates|;
      && EvalAll(2, gates, x) <= vs
      && vs[w] == Z.Mul(2, vs[ps[i]], vs[gs[t]])
      && vs[w + 1] == Z.Add(2, vs[gs[i]], vs[w])
      && vs[w + 2] == Z.Mul(2, vs[ps[i]], vs[ps[t]])
  {
    hide EvalAll, Z.Mul, Z.Add, WellFormed;
    var w := |gates|;
    var g1, g2, g3 := Mul2(ps[i], gs[t]), Lin(false, gs[i], w), Mul2(ps[i], ps[t]);
    EvalAllPush(2, gates, g1, x);
    EvalAllPush(2, gates + [g1], g2, x);
    EvalAllPush(2, gates + [g1] + [g2], g3, x);
  }

  lemma JoinOk(gates: seq<Gate>, n: nat, x: map<Wire, int>, ps: seq<Wire>, gs: seq<Wire>, starts: seq<nat>, t: nat,
               i: nat)
    requires WellFormed(gates) && Spans(gates, n, x, ps, gs, starts) && t < i < n && starts[i] == t + 1
    ensures WellFormed(JoinGates(gates, ps, gs, t, i))
    ensures Spans(JoinGates(gates, ps, gs, t, i), n, x, ps[i := |gates| + 2], gs[i := |gates| + 1],
                  starts[i := starts[t]])
  {
    hide Carry, Propagate, EvalAll, Z.Mul, Z.Add, WellFormed, SpanAt;
    JoinBounds(gates, n, x, ps, gs, starts, t);
    JoinBounds(gates, n, x, ps, gs, starts, i);
    JoinValues(gates, x, ps, gs, t, i);
    var vs, us := EvalAll(2, gates, x), EvalAll(2, JoinGates(gates, ps, gs, t, i), x);
    forall j | 0 <= j < n ensures SpanAt(us, n, j, ps[j], gs[j], starts[j]) {
      SpanGrows(vs, us, n, j, ps[j], gs[j], starts[j]);
    }
    JoinedSpan(us, n, t, i, ps, gs, starts[t], |gates|);
  }

  lemma AllJoinOk(gates: seq<Gate>, n: nat, ps: seq<Wire>, gs: seq<Wire>, starts: seq<nat>, t: nat, i: nat)
    requires WellFormed(gates) && AllSpans(gates, n, ps, gs, starts)
    requires |ps| == |gs| == |starts| == n && t < i < n && starts[i] == t + 1
    ensures WellFormed(JoinGates(gates, ps, gs, t, i))
    ensures AllSpans(JoinGates(gates, ps, gs, t, i), n, ps[i := |gates| + 2], gs[i := |gates| + 1],
                     starts[i := starts[t]])
  {
    hide Spans, JoinGates, WellFormed;
    ghost var none: map<Wire, int> := map[];
    JoinOk(gates, n, none, ps, gs, starts, t, i);
    var ps', gs', starts' := ps[i := |gates| + 2], gs[i := |gates| + 1], starts[i := starts[t]];
    forall x: map<Wire, int>
      ensures Spans(JoinGates(gates, ps, gs, t, i), n, x, ps', gs', starts')
    {
      JoinOk(gates, n, x, ps, gs, starts, t, i);
    }
  }

  /** The first 2n gates are inputs, and no others are. */
  ghost predicate TwoNumbers(gates: seq<Gate>, n: nat) {
    2 * n <= |gates| && forall w :: 0 <= w < |gates| ==> (gates[w].Inp? <==> w < 2 * n)
  }

  /** Joins position i with the group that ends at t. */
  method Join(c: Circuit, ps: seq<Wire>, gs: seq<Wire>, t: nat, i: nat, ghost n: nat, ghost starts: seq<nat>)
    returns (p: Wire, g: Wire)
    requires c.Valid() && AllSpans(c.gates, n, ps, gs, starts)
    requires |ps| == |gs| == |starts| == n && t < i < n && starts[i] == t + 1
    modifies c
    ensures c.Valid() && c.outputs == old(c.outputs)
    ensures TwoNumbers(old(c.gates), n) ==> TwoNumbers(c.gates, n)
    ensures p == |old(c.gates)| + 2 && g == |old(c.gates)| + 1
    ensures AllSpans(c.gates, n, ps[i := p], gs[i := g], starts[i := starts[t]])
  {
    hide Spans, JoinGates;
    ghost var gates := c.gates;
    ghost var none: map<Wire, int> := map[];
    JoinBounds(gates, n, none, ps, gs, starts, t);
    JoinBounds(gates, n, none, ps, gs, starts, i);
    AllJoinOk(gates, n, ps, gs, starts, t, i);
    var w1 := c.AddGate2(KMul, ps[i], gs[t]);
    var w2 := c.AddGate2(KAdd, gs[i], w1.value);
    g := w2.value;
    var w3 := c.AddGate2(KMul, ps[i], ps[t]);
    p := w3.value;
    JoinGatesAre(gates, ps, gs, t, i);
  }

  // ---- the full sweep ----------------------------------------------------------------------------

  /** Where position j's group begins while blocks of h are being joined in pairs and the
      positions below `done` have been served. */
  function StartOf(h: nat, done: nat, j: nat): int
    requires h > 0
  {
    if j < done then j - j % (2 * h) else j - j % h
  }

  ghost predicate StartsAre(starts: seq<nat>, h: nat, done: nat)
    requires h > 0
  {
    forall j :: 0 <= j < |starts| ==> starts[j] == StartOf(h, done, j)
  }

  lemma StartEdge(h: nat, q: nat, i: nat)
    requires i < h
    ensures var base := q * (2 * h);
      && (forall j :: base <= j < base + h ==> j % h == j - base && j % (2 * h) == j - base)
      && (base + h + i) % h == i && (base + h + i) % (2 * h) == h + i
  {
    var base := q * (2 * h);
    assert base == 2 * q * h && base + h == (2 * q + 1) * h;
    forall j | base <= j < base + h ensures j % h == j - base && j % (2 * h) == j - base {
      Z.ModUnique(h, j, 2 * q, j - base);
      Z.ModUnique(2 * h, j, q, j - base);
    }
    Z.ModUnique(h, base + h + i, 2 * q + 1, i);
    Z.ModUnique(2 * h, base + h + i, q, h + i);
  }

  /** The lower half of a block needs no work. */
  lemma LowerHalf(starts: seq<nat>, h: nat, q: nat)
    requires h > 0 && StartsAre(starts, h, q * (2 * h))
    ensures StartsAre(starts, h, q * (2 * h) + h)
  {
    StartEdge(h, q, 0);
  }

  lemma UpperStep(starts: seq<nat>, h: nat, q: nat, i: nat)
    requires i < h && q * (2 * h) + h + i < |starts| && StartsAre(starts, h, q * (2 * h) + h + i)
    ensures var base := q * (2 * h);
      && starts[base + h - 1] == base && starts[base + h + i] == base + h
      && StartsAre(starts[base + h + i := base], h, base + h + i + 1)
  {
    StartEdge(h, q, i);
  }

  lemma NextLevel(starts: seq<nat>, h: nat)
    requires h > 0 && StartsAre(starts, h, |starts|)
    ensures StartsAre(starts, 2 * h, 0)
  {
  }

  lemma {:induction false} Pow2Split(a: nat, b: nat)
    ensures Pow2(a + b) == Pow2(a) * Pow2(b)
  {
    if b > 0 {
      Pow2Split(a, b - 1);
      assert Pow2(a + b) == 2 * Pow2(a + (b - 1));
    }
  }

  lemma BlockFits(q: nat, blocks: nat, d: nat)
    requires q < blocks
    ensures q * d + d <= blocks * d && (q + 1) * d == q * d + d
  {
    assert (q + 1) * d + (blocks - q - 1) * d == blocks * d;
  }

  // ---- the two generators ------------------------------------------------------------------------

  /** 2n inputs, then a sum and a product gate for each of the first i positions. */
  function FirstGates(n: nat, i: nat): (gs: seq<Gate>)
    ensures |gs| == 2 * n + 2 * i
    ensures forall k :: 0 <= k < 2 * n ==> gs[k] == Inp
    ensures forall j :: 0 <= j < i ==> gs[2 * n + 2 * j] == Lin(false, j, n + j)
    ensures forall j :: 0 <= j < i ==> gs[2 * n + 2 * j + 1] == Mul2(j, n + j)
  {
    if i == 0 then seq(2 * n, _ => Inp)
    else FirstGates(n, i - 1) + [Lin(false, i - 1, n + (i - 1))] + [Mul2(i - 1, n + (i - 1))]
  }

  lemma {:induction false} FirstWellFormed(n: nat, i: nat)
    requires i <= n
    ensures WellFormed(FirstGates(n, i))
  {
    if i > 0 {
      FirstWellFormed(n, i - 1);
      var gs := FirstGates(n, i);
      forall k | 0 <= k < |gs| ensures GateOk(gs[k], k) {
        if k < |gs| - 2 {
          assert gs[k] == FirstGates(n, i - 1)[k];
        }
      }
    }
  }

  lemma FirstSpan(n: nat, x: map<Wire, int>, j: nat, ps: seq<Wire>, gs: seq<Wire>)
    requires WellFormed(FirstGates(n, n)) && j < n && |ps| == |gs| == n
    requires ps[j] == 2 * n + 2 * j && gs[j] == 2 * n + 2 * j + 1
    ensures SpanAt(EvalAll(2, FirstGates(n, n), x), n, j, ps[j], gs[j], j)
  {
    hide EvalAll, FirstGates;
    var gates := FirstGates(n, n);
    var vs := EvalAll(2, gates, x);
    EvalAllAt(2, gates, x, 2 * n + 2 * j);
    EvalAllAt(2, gates, x, 2 * n + 2 * j + 1);
    assert vs[j] in {0, 1} && vs[n + j] in {0, 1};
    var a, b := vs[..n], vs[n..2 * n];
    assert a[j] == vs[j] && b[j] == vs[n + j];
    assert Propagate(a, b, j, j + 1) == (a[j] + b[j]) % 2;
    assert Carry(a, b, j, j + 1) == a[j] * b[j];
  }

  lemma FirstSpans(n: nat, ps: seq<Wire>, gs: seq<Wire>, starts: seq<nat>)
    requires |ps| == |gs| == |starts| == n
    requires forall j :: 0 <= j < n ==> ps[j] == 2 * n + 2 * j && gs[j] == 2 * n + 2 * j + 1 && starts[j] == j
    ensures WellFormed(FirstGates(n, n)) && AllSpans(FirstGates(n, n), n, ps, gs, starts)
  {
    hide EvalAll, SpanAt, WellFormed, FirstGates;
    FirstWellFormed(n, n);
    forall x: map<Wire, int> ensures Spans(FirstGates(n, n), n, x, ps, gs, starts) {
      forall j | 0 <= j < n ensures SpanAt(EvalAll(2, FirstGates(n, n), x), n, j, ps[j], gs[j], starts[j]) {
        FirstSpan(n, x, j, ps, gs);
      }
    }
  }

  /** The 2n input wires. */
  method BeginInputs(n: nat) returns (c: Circuit)
    ensures fresh(c) && c.Valid() && c.outputs == [] && c.gates == FirstGates(n, 0)
  {
    c := new Circuit();
    for i := 0 to 2 * n
      invariant fresh(c) && c.Valid() && c.outputs == [] && c.gates == seq(i, _ => Inp)
    {
      var w := c.NewInputWire();
    }
  }

  /** The propagate and generate gates of position i. */
  method BeginAt(c: Circuit, n: nat, i: nat) returns (p: Wire, g: Wire)
    requires c.Valid() && i < n && c.gates == FirstGates(n, i)
    modifies c
    ensures c.Valid() && c.outputs == old(c.outputs) && c.gates == FirstGates(n, i + 1)
    ensures p == 2 * n + 2 * i && g == 2 * n + 2 * i + 1
  {
    hide WellFormed;
    var p' := c.AddGate2(KAdd, i, n + i);
    var g' := c.AddGate2(KMul, i, n + i);
    p, g := p'.value, g'.value;
  }

  lemma FirstInputs(n: nat, i: nat)
    ensures TwoNumbers(FirstGates(n, i), n)
  {
    hide FirstGates;
    var gs := FirstGates(n, i);
    forall w | 0 <= w < |gs| ensures gs[w].Inp? <==> w < 2 * n {
      if w >= 2 * n {
        var j := (w - 2 * n) / 2;
        assert w == 2 * n + 2 * j || w == 2 * n + 2 * j + 1;
      }
    }
  }

  /** The inputs, and the propagate and generate wires of the single positions. */
  method Begin(n: nat) returns (c: Circuit, ps: seq<Wire>, gs: seq<Wire>, ghost starts: seq<nat>)
    ensures fresh(c) && c.Valid() && c.outputs == [] && TwoNumbers(c.gates, n)
    ensures |ps| == |gs| == |starts| == n && forall j :: 0 <= j < n ==> starts[j] == j
    ensures AllSpans(c.gates, n, ps, gs, starts)
  {
    hide FirstGates, AllSpans, WellFormed, TwoNumbers;
    c := BeginInputs(n);
    ps, gs := [], [];
    for i := 0 to n
      invariant fresh(c) && c.Valid() && c.outputs == [] && c.gates == FirstGates(n, i)
      invariant |ps| == |gs| == i
      invariant forall j :: 0 <= j < i ==> ps[j] == 2 * n + 2 * j && gs[j] == 2 * n + 2 * j + 1
    {
      var p, g := BeginAt(c, n, i);
      ps, gs := ps + [p], gs + [g];
    }
    starts := seq(n, j requires j >= 0 => j);
    FirstSpans(n, ps, gs, starts);
    FirstInputs(n, n);
  }

  /** One level of the full sweep: blocks of h become blocks of 2h. */
  method SweepLevel(c: Circuit, ps0: seq<Wire>, gs0: seq<Wire>, h: nat, blocks: nat, ghost starts0: seq<nat>)
    returns (ps: seq<Wire>, gs: seq<Wire>, ghost starts: seq<nat>)
    requires h > 0 && c.Valid() && c.outputs == [] && TwoNumbers(c.gates, |ps0|)
      && |ps0| == |gs0| == |starts0| == blocks * (2 * h)
    requires AllSpans(c.gates, |ps0|, ps0, gs0, starts0) && StartsAre(starts0, h, 0)
    modifies c
    ensures c.Valid() && c.outputs == [] && TwoNumbers(c.gates, |ps0|) && |ps| == |gs| == |starts| == |ps0|
    ensures AllSpans(c.gates, |ps|, ps, gs, starts) && StartsAre(starts, 2 * h, 0)
  {
    hide AllSpans, WellFormed, StartsAre, TwoNumbers;
    ps, gs, starts := ps0, gs0, starts0;
    var n := |ps0|;
    for count := 1 to blocks + 1
      invariant c.Valid() && c.outputs == [] && TwoNumbers(c.gates, n) && |ps| == |gs| == |starts| == n
      invariant AllSpans(c.gates, n, ps, gs, starts) && StartsAre(starts, h, (count - 1) * (2 * h))
    {
      ghost var base := (count - 1) * (2 * h);
      BlockFits(count - 1, blocks, 2 * h);
      var temp := h + (count - 1) * (2 * h) - 1;
      LowerHalf(starts, h, count - 1);
      for i := 0 to h
        invariant c.Valid() && c.outputs == [] && TwoNumbers(c.gates, n) && |ps| == |gs| == |starts| == n
        invariant AllSpans(c.gates, n, ps, gs, starts) && StartsAre(starts, h, base + h + i)
      {
        UpperStep(starts, h, count - 1, i);
        var p, g := Join(c, ps, gs, temp, temp + i + 1, n, starts);
        gs := gs[temp + i + 1 := g];
        ps := ps[temp + i + 1 := p];
        starts := starts[base + h + i := base];
      }
    }
    NextLevel(starts, h);
  }

  // ---- the sum bits -------------------------------------------------------------------------------

  /** A wire that carries sum bit k: position k's digits and the carry of the positions below. */
  ghost predicate SumAt(vs: seq<int>, n: nat, k: nat, w: Wire)
    requires Reduced(2, vs) && 2 * n <= |vs| && k < n
  {
    w < |vs| && vs[w] == (vs[k] + vs[n + k] + Carry(vs[..n], vs[n..2 * n], 0, k)) % 2
  }

  ghost predicate SumsAt(gates: seq<Gate>, n: nat, x: map<Wire, int>, sums: seq<Wire>)
    requires WellFormed(gates)
  {
    2 * n <= |gates| && |sums| <= n && forall k :: 0 <= k < |sums| ==> SumAt(EvalAll(2, gates, x), n, k, sums[k])
  }

  ghost predicate AllSums(gates: seq<Gate>, n: nat, sums: seq<Wire>)
    requires WellFormed(gates)
  {
    forall x: map<Wire, int> :: SumsAt(gates, n, x, sums)
  }

  lemma SumGrows(vs: seq<int>, ws: seq<int>, n: nat, k: nat, w: Wire)
    requires Reduced(2, vs) && Reduced(2, ws) && 2 * n <= |vs| && k < n && vs <= ws && SumAt(vs, n, k, w)
    ensures SumAt(ws, n, k, w)
  {
    assert ws[..n] == vs[..n] && ws[n..2 * n] == vs[n..2 * n];
  }

  /** A further gate disturbs nothing. */
  lemma SpansGrow(gates: seq<Gate>, g: Gate, n: nat, ps: seq<Wire>, gs: seq<Wire>, starts: seq<nat>, sums: seq<Wire>)
    requires WellFormed(gates) && GateOk(g, |gates|)
    requires AllSpans(gates, n, ps, gs, starts) && AllSums(gates, n, sums)
    ensures WellFormed(gates + [g])
    ensures AllSpans(gates + [g], n, ps, gs, starts) && AllSums(gates + [g], n, sums)
  {
    assert WellFormed(gates + [g]);
    hide EvalAll, SpanAt, SumAt, GateOk;
    forall x: map<Wire, int> ensures Spans(gates + [g], n, x, ps, gs, starts) && SumsAt(gates + [g], n, x, sums) {
      assert Spans(gates, n, x, ps, gs, starts) && SumsAt(gates, n, x, sums);
      EvalAllPush(2, gates, g, x);
      var vs, ws := EvalAll(2, gates, x), EvalAll(2, gates + [g], x);
      forall j | 0 <= j < n ensures SpanAt(ws, n, j, ps[j], gs[j], starts[j]) {
        SpanGrows(vs, ws, n, j, ps[j], gs[j], starts[j]);
      }
      forall k | 0 <= k < |sums| ensures SumAt(ws, n, k, sums[k]) {
        SumGrows(vs, ws, n, k, sums[k]);
      }
    }
  }

  /** The wire w of sum bit k: one gate for bit 0, two for the others, the first being u. */
  ghost predicate SumWire(gates: seq<Gate>, n: nat, k: nat, gs: seq<Wire>, u: Wire, w: Wire)
    requires |gs| == n && k < n
  {
    && u < |gates| && w < |gates| && gates[u] == Lin(false, k, n + k)
    && if k == 0 then w == u else gates[w] == Lin(false, u, gs[k - 1])
  }

  lemma NoCarryIn(a: seq<int>, b: seq<int>)
    requires Bits(a, b)
    ensures Carry(a, b, 0, 0) == 0
  {
  }

  lemma SumWireOk(gates: seq<Gate>, n: nat, x: map<Wire, int>, k: nat, ps: seq<Wire>, gs: seq<Wire>, starts: seq<nat>,
                  u: Wire, w: Wire)
    requires WellFormed(gates) && Spans(gates, n, x, ps, gs, starts) && k < n && SumWire(gates, n, k, gs, u, w)
    requires k > 0 ==> starts[k - 1] == 0
    ensures SumAt(EvalAll(2, gates, x), n, k, w)
  {
    hide EvalAll, Carry, Propagate, WellFormed;
    var vs := EvalAll(2, gates, x);
    NoCarryIn(vs[..n], vs[n..2 * n]);
    SumGate(gates, x, u, k, n + k);
    if k > 0 {
      assert SpanAt(vs, n, k - 1, ps[k - 1], gs[k - 1], starts[k - 1]);
      SumGate(gates, x, w, u, gs[k - 1]);
      SumTwice(vs[k] + vs[n + k], vs[gs[k - 1]]);
    }
  }

  lemma SumGate(gates: seq<Gate>, x: map<Wire, int>, w: Wire, a: Wire, b: Wire)
    requires WellFormed(gates) && w < |gates| && gates[w] == Lin(false, a, b)
    ensures a < |gates| && b < |gates|
    ensures EvalAll(2, gates, x)[w] == (EvalAll(2, gates, x)[a] + EvalAll(2, gates, x)[b]) % 2
  {
    EvalAllAt(2, gates, x, w);
    hide EvalAll, WellFormed;
  }

  lemma SumTwice(a: int, b: int)
    ensures (a % 2 + b) % 2 == (a + b) % 2
  {
  }

  lemma SumWiresOk(gates: seq<Gate>, n: nat, k: nat, ps: seq<Wire>, gs: seq<Wire>, starts: seq<nat>, sums: seq<Wire>,
                   u: Wire, w: Wire)
    requires WellFormed(gates) && AllSpans(gates, n, ps, gs, starts) && AllSums(gates, n, sums)
    requires k == |sums| < n == |gs| == |starts| && SumWire(gates, n, k, gs, u, w) && (k > 0 ==> starts[k - 1] == 0)
    ensures AllSums(gates, n, sums + [w])
  {
    hide EvalAll, SumAt, WellFormed, SpanAt;
    forall x: map<Wire, int> ensures SumsAt(gates, n, x, sums + [w]) {
      assert Spans(gates, n, x, ps, gs, starts) && SumsAt(gates, n, x, sums);
      SumWireOk(gates, n, x, k, ps, gs, starts, u, w);
    }
  }

  /** Adds the gates of sum bit k. */
  method AddSum(c: Circuit, n: nat, k: nat, ps: seq<Wire>, gs: seq<Wire>, sums: seq<Wire>, ghost starts: seq<nat>)
    returns (w: Wire)
    requires c.Valid() && AllSpans(c.gates, n, ps, gs, starts) && AllSums(c.gates, n, sums)
    requires k == |sums| < n == |ps| == |gs| == |starts| && (k > 0 ==> starts[k - 1] == 0)
    modifies c
    ensures c.Valid() && c.outputs == old(c.outputs)
    ensures TwoNumbers(old(c.gates), n) ==> TwoNumbers(c.gates, n)
    ensures w < |c.gates| && |old(c.gates)| <= |c.gates|
    ensures AllSpans(c.gates, n, ps, gs, starts) && AllSums(c.gates, n, sums + [w])
  {
    ghost var none: map<Wire, int> := map[];
    hide AllSums, WellFormed, Spans, SpanAt, EvalAll;
    assert Spans(c.gates, n, none, ps, gs, starts);
    JoinBounds(c.gates, n, none, ps, gs, starts, if k > 0 then k - 1 else 0);
    hide AllSpans;
    SpansGrow(c.gates, Lin(false, k, n + k), n, ps, gs, starts, sums);
    var u := c.AddGate2(KAdd, k, n + k);
    w := u.value;
    if k > 0 {
      SpansGrow(c.gates, Lin(false, w, gs[k - 1]), n, ps, gs, starts, sums);
      var s := c.AddGate2(KAdd, w, gs[k - 1]);
      assert c.gates[w] == Lin(false, k, n + k);
      w := s.value;
    }
    SumWiresOk(c.gates, n, k, ps, gs, starts, sums, u.value, w);
  }

  // ---- what the circuits compute ---------------------------------------------------------------

  /** The bits fed to the n input wires from `from` on; a missing input counts as 0. */
  function InputBits(x: map<Wire, int>, from: nat, n: nat): (s: seq<int>)
    ensures |s| == n && Reduced(2, s)
  {
    seq(n, i requires i >= 0 => if from + i in x then x[from + i] % 2 else 0)
  }

  /** For all inputs the n outputs are the digits of the sum modulo 2^n. */
  ghost predicate Adds(gates: seq<Gate>, outputs: seq<Wire>, n: nat)
    requires WellFormed(gates) && Below(outputs, |gates|) && |outputs| == n
  {
    forall x: map<Wire, int> ::
      && Reduced(2, Outputs(2, gates, outputs, x))
      && Num(Outputs(2, gates, outputs, x), n)
         == (Num(InputBits(x, 0, n), n) + Num(InputBits(x, n, n), n)) % Pow2(n)
  }

  /** For all inputs the one output is the top digit of that sum. */
  ghost predicate AddsTopBit(gates: seq<Gate>, outputs: seq<Wire>, n: nat)
    requires WellFormed(gates) && Below(outputs, |gates|) && n > 0
  {
    forall x: map<Wire, int> ::
      Outputs(2, gates, outputs, x)
      == [(Num(InputBits(x, 0, n), n) + Num(InputBits(x, n, n), n)) / Pow2(n - 1) % 2]
  }

  lemma InputsAre(gates: seq<Gate>, n: nat, x: map<Wire, int>)
    requires WellFormed(gates) && TwoNumbers(gates, n)
    ensures var vs := EvalAll(2, gates, x); vs[..n] == InputBits(x, 0, n) && vs[n..2 * n] == InputBits(x, n, n)
  {
    hide EvalAll;
    forall w | 0 <= w < 2 * n ensures EvalAll(2, gates, x)[w] == if w in x then x[w] % 2 else 0 {
      EvalAllAt(2, gates, x, w);
    }
  }

  lemma SumDigit(gates: seq<Gate>, n: nat, sums: seq<Wire>, x: map<Wire, int>, i: nat)
    requires WellFormed(gates) && TwoNumbers(gates, n) && i < |sums| == n && SumsAt(gates, n, x, sums)
    requires Below(sums, |gates|)
    ensures var a, b := InputBits(x, 0, n), InputBits(x, n, n);
      Outputs(2, gates, sums, x)[i] == (a[i] + b[i] + Carry(a, b, 0, i)) % 2
  {
    hide EvalAll, Carry, WellFormed, TwoNumbers, InputBits;
    var vs := EvalAll(2, gates, x);
    InputsAre(gates, n, x);
    assert SumAt(vs, n, i, sums[i]);
    assert vs[i] == vs[..n][i] && vs[n + i] == vs[n..2 * n][i];
  }

  lemma OutputsReduced(gates: seq<Gate>, outputs: seq<Wire>, x: map<Wire, int>)
    requires WellFormed(gates) && Below(outputs, |gates|)
    ensures |Outputs(2, gates, outputs, x)| == |outputs| && Reduced(2, Outputs(2, gates, outputs, x))
  {
  }

  lemma SumsAdd(gates: seq<Gate>, n: nat, sums: seq<Wire>, x: map<Wire, int>)
    requires WellFormed(gates) && TwoNumbers(gates, n) && n == |sums| > 0 && SumsAt(gates, n, x, sums)
    requires Below(sums, |gates|)
    ensures Reduced(2, Outputs(2, gates, sums, x))
    ensures Num(Outputs(2, gates, sums, x), n)
         == (Num(InputBits(x, 0, n), n) + Num(InputBits(x, n, n), n)) % Pow2(n)
    ensures Outputs(2, gates, sums, x)[n - 1]
         == (Num(InputBits(x, 0, n), n) + Num(InputBits(x, n, n), n)) / Pow2(n - 1) % 2
  {
    hide EvalAll, Num, Carry, Pow2, WellFormed, TwoNumbers, Outputs, InputBits, SumsAt;
    var a, b, s := InputBits(x, 0, n), InputBits(x, n, n), Outputs(2, gates, sums, x);
    OutputsReduced(gates, sums, x);
    forall i | 0 <= i < n ensures s[i] == (a[i] + b[i] + Carry(a, b, 0, i)) % 2 {
      SumDigit(gates, n, sums, x, i);
    }
    SumModulo(a, b, s, n);
  }

  // ---- the full adder ------------------------------------------------------------------------------

  lemma StartsBegin(starts: seq<nat>)
    requires forall j :: 0 <= j < |starts| ==> starts[j] == j
    ensures StartsAre(starts, 1, 0)
  {
  }

  /** One block: every group starts at bit 0. */
  lemma StartsEnd(starts: seq<nat>)
    requires |starts| > 0 && StartsAre(starts, |starts|, 0)
    ensures forall j :: 0 <= j < |starts| ==> starts[j] == 0
  {
    forall j | 0 <= j < |starts| ensures starts[j] == 0 {
      Z.ModUnique(|starts|, j, 0, j);
    }
  }

  lemma LevelSize(levels: nat, level: nat)
    requires 1 <= level <= levels
    ensures Pow2(levels - level) * (2 * Pow2(level - 1)) == Pow2(levels)
    ensures Pow2(level) == 2 * Pow2(level - 1)
  {
    Pow2Split(levels - level, level);
  }

  /** The sum wires, once every group starts at bit 0; they become the outputs. */
  method AddSums(c: Circuit, n: nat, ps: seq<Wire>, gs: seq<Wire>, ghost starts: seq<nat>)
    requires n > 0 && c.Valid() && c.outputs == [] && TwoNumbers(c.gates, n)
    requires |ps| == |gs| == |starts| == n && AllSpans(c.gates, n, ps, gs, starts)
    requires forall j :: 0 <= j < n ==> starts[j] == 0
    modifies c
    ensures c.Valid() && TwoNumbers(c.gates, n) && |c.outputs| == n && Adds(c.gates, c.outputs, n)
  {
    var sums: seq<Wire> := [];
    assert AllSums(c.gates, n, sums);
    hide AllSpans, WellFormed, TwoNumbers, AllSums;
    for k := 0 to n
      invariant c.Valid() && c.outputs == [] && TwoNumbers(c.gates, n)
      invariant |sums| == k && Below(sums, |c.gates|)
      invariant AllSpans(c.gates, n, ps, gs, starts) && AllSums(c.gates, n, sums)
    {
      var w := AddSum(c, n, k, ps, gs, sums, starts);
      sums := sums + [w];
    }
    for k := 0 to n
      invariant c.Valid() && c.outputs == sums[..k] && TwoNumbers(c.gates, n)
      invariant Below(sums, |c.gates|) && AllSums(c.gates, n, sums)
    {
      var ok := c.SetAsOutput(sums[k]);
    }
    assert c.outputs == sums;
    AllSumsAdd(c.gates, n, sums);
  }

  lemma AllSumsAdd(gates: seq<Gate>, n: nat, sums: seq<Wire>)
    requires WellFormed(gates) && TwoNumbers(gates, n) && n == |sums| > 0 && AllSums(gates, n, sums)
    requires Below(sums, |gates|)
    ensures Adds(gates, sums, n)
  {
    hide WellFormed, TwoNumbers, SumsAt, Num, Reduced, EvalAll;
    forall x: map<Wire, int>
      ensures Reduced(2, Outputs(2, gates, sums, x))
      ensures Num(Outputs(2, gates, sums, x), n)
           == (Num(InputBits(x, 0, n), n) + Num(InputBits(x, n, n), n)) % Pow2(n)
    {
      assert SumsAt(gates, n, x, sums);
      SumsAdd(gates, n, sums, x);
    }
  }

  /** The adder of two numbers of 2^levels bits; the program builds it for levels = 6. */
  method GeneratePPA(levels: nat) returns (c: Circuit)
    ensures c.Valid() && TwoNumbers(c.gates, Pow2(levels)) && |c.outputs| == Pow2(levels)
    ensures Adds(c.gates, c.outputs, Pow2(levels))
  {
    var n := Pow2(levels);
    assert Pow2(0) == 1;
    hide AllSpans, WellFormed, TwoNumbers, StartsAre, Adds, Pow2;
    var ps, gs;
    ghost var starts;
    c, ps, gs, starts := Begin(n);
    StartsBegin(starts);
    for level := 1 to levels + 1
      invariant c.Valid() && fresh(c) && c.outputs == [] && TwoNumbers(c.gates, n)
      invariant |ps| == |gs| == |starts| == n
      invariant AllSpans(c.gates, n, ps, gs, starts) && StartsAre(starts, Pow2(level - 1), 0)
    {
      LevelSize(levels, level);
      ps, gs, starts := SweepLevel(c, ps, gs, Pow2(level - 1), Pow2(levels - level), starts);
    }
    StartsEnd(starts);
    AddSums(c, n, ps, gs, starts);
  }

  // ---- the top bit ---------------------------------------------------------------------------------

  /** The pruned sweep serves the ends of blocks only, and position n-2 for the last one:
      groups that end a block start where the block starts. */
  ghost predicate PrunedStarts(starts: seq<nat>, h: nat, done: nat)
    requires h > 0
  {
    forall j :: 1 <= j < |starts| ==>
      && (j <= done && j % (2 * h) == 0 ==> starts[j - 1] == j - 2 * h)
      && (j > done && j % h == 0 ==> starts[j - 1] == j - h)
  }

  lemma NoMultiple(d: nat, q: nat)
    requires d > 0
    ensures forall j :: q * d < j < q * d + d ==> j % d != 0
  {
    forall j | q * d < j < q * d + d ensures j % d != 0 {
      Z.ModUnique(d, j, q, j - q * d);
    }
  }

  lemma PrunedStep(starts: seq<nat>, h: nat, q: nat)
    requires h > 0 && (q + 1) * (2 * h) < |starts| && |starts| % (2 * h) == 0
    requires PrunedStarts(starts, h, q * (2 * h))
    ensures q * (2 * h) + 2 * h == (q + 1) * (2 * h)
    ensures var t := q * (2 * h) + h - 1;
      && starts[t] == q * (2 * h) && starts[t + h] == t + 1 && t + h + 2 != |starts|
      && PrunedStarts(starts[t + h := starts[t]], h, (q + 1) * (2 * h))
  {
    BlockFits(q, q + 1, 2 * h);
    StartEdge(h, q, 0);
    var base := q * (2 * h);
    Z.ModUnique(h, base + 2 * h, 2 * q + 2, 0);
    Z.ModUnique(2 * h, base + 2 * h, q + 1, 0);
    Z.ModUnique(2 * h, base + 2 * h + 1, q + 1, 1);
    assert starts[base + h - 1] == base;
    assert starts[base + 2 * h - 1] == base + h;
    NoMultiple(2 * h, q);
  }

  /** Position |starts|-2 does not end a block of d. */
  lemma BlockEnds(starts: seq<nat>, d: nat, q: nat, last: nat)
    requires d >= 2 && q * d + d == |starts|
    requires forall j :: 1 <= j <= q * d && j % d == 0 ==> starts[j - 1] == j - d
    ensures forall j :: 1 <= j < |starts| && j % d == 0 ==> starts[|starts| - 2 := last][j - 1] == j - d
  {
    NoMultiple(d, q);
    var kept := starts[|starts| - 2 := last];
    forall j | 1 <= j < |starts| && j % d == 0 ensures kept[j - 1] == j - d {
      assert j <= q * d;
    }
  }

  /** The last block's own end is never needed: position n-2 takes its place. */
  lemma PrunedLast(starts: seq<nat>, h: nat, q: nat, last: nat)
    requires h > 0 && (q + 1) * (2 * h) == |starts| && PrunedStarts(starts, h, q * (2 * h))
    ensures q * (2 * h) + 2 * h == |starts|
    ensures starts[q * (2 * h) + h - 1] == q * (2 * h)
    ensures PrunedStarts(starts[|starts| - 2 := last], 2 * h, 0)
  {
    BlockFits(q, q + 1, 2 * h);
    PrunedFirst(starts, h, q);
    var d := 2 * h;
    assert forall j :: 1 <= j <= q * d && j % d == 0 ==> starts[j - 1] == j - d;
    BlockEnds(starts, d, q, last);
  }

  /** The first half of a block not yet joined. */
  lemma PrunedFirst(starts: seq<nat>, h: nat, q: nat)
    requires h > 0 && q * (2 * h) + h < |starts| && PrunedStarts(starts, h, q * (2 * h))
    ensures starts[q * (2 * h) + h - 1] == q * (2 * h)
  {
    var base := q * (2 * h);
    assert (2 * q + 1) * h == base + h;
    Z.ModUnique(h, base + h, 2 * q + 1, 0);
    assert starts[base + h - 1] == base;
  }

  lemma PrunedBegin(starts: seq<nat>)
    requires forall j :: 0 <= j < |starts| ==> starts[j] == j
    ensures PrunedStarts(starts, 1, 0)
  {
  }

  /** Where position n-2's group starts before blocks of h are joined. */
  function LastStart(n: nat, h: nat): int {
    if h == 1 then n - 2 else n - h
  }

  /** The last block of a pruned level: position n-2 is joined, except on the first level. */
  method PrunedTail(c: Circuit, ps0: seq<Wire>, gs0: seq<Wire>, h: nat, blocks: nat, ghost starts0: seq<nat>)
    returns (ps: seq<Wire>, gs: seq<Wire>, ghost starts: seq<nat>)
    requires h > 0 && blocks > 0 && |ps0| == |gs0| == |starts0| == blocks * (2 * h)
    requires c.Valid() && c.outputs == [] && TwoNumbers(c.gates, |ps0|) && AllSpans(c.gates, |ps0|, ps0, gs0, starts0)
    requires PrunedStarts(starts0, h, (blocks - 1) * (2 * h))
    requires |ps0| >= 2 && starts0[|ps0| - 2] == LastStart(|ps0|, h)
    modifies c
    ensures c.Valid() && c.outputs == [] && TwoNumbers(c.gates, |ps0|) && |ps| == |gs| == |starts| == |ps0|
    ensures AllSpans(c.gates, |ps|, ps, gs, starts)
    ensures PrunedStarts(starts, 2 * h, 0) && starts[|ps| - 2] == LastStart(|ps|, 2 * h)
  {
    hide AllSpans, WellFormed, PrunedStarts, TwoNumbers;
    ps, gs := ps0, gs0;
    var n := |ps0|;
    PrunedLast(starts0, h, blocks - 1, n - 2 * h);
    starts := starts0[n - 2 := n - 2 * h];
    if h != 1 {
      var temp := n - 2 * h + h - 1;
      var p, g := Join(c, ps, gs, temp, n - 2, n, starts0);
      gs := gs[n - 2 := g];
      ps := ps[n - 2 := p];
    } else {
      assert starts == starts0;
    }
  }

  /** One level of the pruned sweep. */
  method PrunedLevel(c: Circuit, ps0: seq<Wire>, gs0: seq<Wire>, h: nat, blocks: nat, ghost starts0: seq<nat>)
    returns (ps: seq<Wire>, gs: seq<Wire>, ghost starts: seq<nat>)
    requires h > 0 && blocks > 0 && |ps0| == |gs0| == |starts0| == blocks * (2 * h)
    requires c.Valid() && c.outputs == [] && TwoNumbers(c.gates, |ps0|) && AllSpans(c.gates, |ps0|, ps0, gs0, starts0)
    requires PrunedStarts(starts0, h, 0) && |ps0| >= 2 && starts0[|ps0| - 2] == LastStart(|ps0|, h)
    modifies c
    ensures c.Valid() && c.outputs == [] && TwoNumbers(c.gates, |ps0|) && |ps| == |gs| == |starts| == |ps0|
    ensures AllSpans(c.gates, |ps|, ps, gs, starts)
    ensures PrunedStarts(starts, 2 * h, 0) && starts[|ps| - 2] == LastStart(|ps|, 2 * h)
  {
    hide AllSpans, WellFormed, PrunedStarts, TwoNumbers, LastStart;
    ps, gs, starts := ps0, gs0, starts0;
    var n := |ps0|;
    Z.ModUnique(2 * h, n, blocks, 0);
    for count := 1 to blocks
      invariant c.Valid() && c.outputs == [] && TwoNumbers(c.gates, n) && |ps| == |gs| == |starts| == n
      invariant AllSpans(c.gates, n, ps, gs, starts) && PrunedStarts(starts, h, (count - 1) * (2 * h))
      invariant starts[n - 2] == LastStart(n, h)
    {
      BlockFits(count, blocks, 2 * h);
      PrunedStep(starts, h, count - 1);
      var temp := h + (count - 1) * (2 * h) - 1;
      var p, g := Join(c, ps, gs, temp, temp + h, n, starts);
      gs := gs[temp + h := g];
      ps := ps[temp + h := p];
      starts := starts[temp + h := starts[temp]];
    }
    ps, gs, starts := PrunedTail(c, ps, gs, h, blocks, starts);
  }

  lemma TopBitIs(gates: seq<Gate>, n: nat, x: map<Wire, int>, ps: seq<Wire>, gs: seq<Wire>, starts: seq<nat>,
                 u: Wire, w: Wire)
    requires WellFormed(gates) && TwoNumbers(gates, n) && n >= 2 && Spans(gates, n, x, ps, gs, starts)
    requires starts[n - 2] == 0 && SumWire(gates, n, n - 1, gs, u, w)
    ensures Outputs(2, gates, [w], x)
         == [(Num(InputBits(x, 0, n), n) + Num(InputBits(x, n, n), n)) / Pow2(n - 1) % 2]
  {
    hide EvalAll, Num, Carry, Pow2, SumWire, TwoNumbers;
    var vs := EvalAll(2, gates, x);
    var a, b := InputBits(x, 0, n), InputBits(x, n, n);
    SumWireOk(gates, n, x, n - 1, ps, gs, starts, u, w);
    InputsAre(gates, n, x);
    assert a[n - 1] == vs[n - 1] && b[n - 1] == vs[n..2 * n][n - 1] == vs[n + (n - 1)];
    var s := seq(n, i requires 0 <= i < n => (a[i] + b[i] + Carry(a, b, 0, i)) % 2);
    SumModulo(a, b, s, n);
  }

  /** The circuit for the top bit of a sum of two numbers of 2^levels bits; the program
      builds it for levels = 6. */
  method GeneratePPAMSB(levels: nat) returns (c: Circuit)
    requires levels > 0
    ensures c.Valid() && TwoNumbers(c.gates, Pow2(levels)) && |c.outputs| == 1
    ensures AddsTopBit(c.gates, c.outputs, Pow2(levels))
  {
    var n := Pow2(levels);
    assert n == 2 * Pow2(levels - 1) && Pow2(0) == 1;
    hide AllSpans, WellFormed, TwoNumbers, PrunedStarts, AddsTopBit, Pow2;
    var ps, gs;
    ghost var starts;
    c, ps, gs, starts := Begin(n);
    PrunedBegin(starts);
    for level := 1 to levels + 1
      invariant c.Valid() && fresh(c) && c.outputs == [] && TwoNumbers(c.gates, n)
      invariant |ps| == |gs| == |starts| == n
      invariant AllSpans(c.gates, n, ps, gs, starts) && PrunedStarts(starts, Pow2(level - 1), 0)
      invariant starts[n - 2] == LastStart(n, Pow2(level - 1))
    {
      LevelSize(levels, level);
      ps, gs, starts := PrunedLevel(c, ps, gs, Pow2(level - 1), Pow2(levels - level), starts);
    }
    AddTopBit(c, n, ps, gs, starts);
  }

  lemma NoSumsYet(gates: seq<Gate>, n: nat)
    requires WellFormed(gates) && 2 * n <= |gates|
    ensures AllSums(gates, n, [])
  {
  }

  lemma LinKeepsInputs(gates: seq<Gate>, n: nat, a: Wire, b: Wire)
    requires TwoNumbers(gates, n)
    ensures TwoNumbers(gates + [Lin(false, a, b)], n)
  {
  }

  lemma TopWire(gates: seq<Gate>, n: nat, gs: seq<Wire>, u: Wire, w: Wire)
    requires n >= 2 && |gs| == n && u < |gates| && w < |gates|
    requires gates[u] == Lin(false, n - 1, n + (n - 1)) && gates[w] == Lin(false, u, gs[n - 2])
    ensures SumWire(gates, n, n - 1, gs, u, w)
  {
  }

  method AddTopBit(c: Circuit, n: nat, ps: seq<Wire>, gs: seq<Wire>, ghost starts: seq<nat>)
    requires n >= 2 && c.Valid() && c.outputs == [] && TwoNumbers(c.gates, n)
    requires |ps| == |gs| == |starts| == n && AllSpans(c.gates, n, ps, gs, starts) && starts[n - 2] == 0
    modifies c
    ensures c.Valid() && TwoNumbers(c.gates, n) && |c.outputs| == 1 && AddsTopBit(c.gates, c.outputs, n)
  {
    hide WellFormed, Spans, SpanAt, AllSums, EvalAll, TwoNumbers, AddsTopBit, SumWire;
    ghost var none: map<Wire, int>, nosums: seq<Wire> := map[], [];
    assert Spans(c.gates, n, none, ps, gs, starts);
    JoinBounds(c.gates, n, none, ps, gs, starts, n - 2);
    NoSumsYet(c.gates, n);
    hide AllSpans;
    SpansGrow(c.gates, Lin(false, n - 1, n + (n - 1)), n, ps, gs, starts, nosums);
    LinKeepsInputs(c.gates, n, n - 1, n + (n - 1));
    var u := c.AddGate2(KAdd, n - 1, n + (n - 1));
    SpansGrow(c.gates, Lin(false, u.value, gs[n - 2]), n, ps, gs, starts, nosums);
    LinKeepsInputs(c.gates, n, u.value, gs[n - 2]);
    var w := c.AddGate2(KAdd, u.value, gs[n - 2]);
    var ok := c.SetAsOutput(w.value);
    TopWire(c.gates, n, gs, u.value, w.value);
    TopBits(c.gates, n, ps, gs, starts, u.value, w.value);
    assert c.outputs == [w.value];
  }

  lemma TopBits(gates: seq<Gate>, n: nat, ps: seq<Wire>, gs: seq<Wire>, starts: seq<nat>, u: Wire, w: Wire)
    requires WellFormed(gates) && TwoNumbers(gates, n) && n >= 2 && AllSpans(gates, n, ps, gs, starts)
    requires |gs| == |starts| == n && starts[n - 2] == 0 && SumWire(gates, n, n - 1, gs, u, w)
    ensures AddsTopBit(gates, [w], n)
  {
    hide WellFormed, Spans, Num, TwoNumbers, EvalAll;
    assert Below([w], |gates|);
    forall x: map<Wire, int>
      ensures Outputs(2, gates, [w], x)
           == [(Num(InputBits(x, 0, n), n) + Num(InputBits(x, n, n), n)) / Pow2(n - 1) % 2]
    {
      assert Spans(gates, n, x, ps, gs, starts);
      TopBitIs(gates, n, x, ps, gs, starts, u, w);
    }
  }
}
