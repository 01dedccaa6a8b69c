/** Arithmetic circuits: the gates, the builder, the multiplicative levels and the
    plaintext evaluator. */
module Circuits {
  import opened Wrappers
  import Z = ZMod

  /** A wire is named by the position of the gate that drives it. */
  type Wire = nat

  datatype GateType =
    | KInp | KAdd | KMul | KMul3 | KMul4 | KSub | KConstAdd | KConstMul
    | KRelu | KMsb | KEqz | KLtz | KDotprod | KTrdotp

  datatype Gate =
    | Inp
    | Lin(sub: bool, in1: Wire, in2: Wire)
    | ConstAdd(inp: Wire, cval: int)
    | ConstMul(inp: Wire, cval: int)
    | Mul2(in1: Wire, in2: Wire)
    | Mul3(in1: Wire, in2: Wire, in3: Wire)
    | Mul4(in1: Wire, in2: Wire, in3: Wire, in4: Wire)
    | Unary(kind: GateType, inp: Wire)
    | Simd(trunc: bool, ins1: seq<Wire>, ins2: seq<Wire>)

  function Ins(g: Gate): seq<Wire> {
    match g
    case Inp => []
    case Lin(_, a, b) => [a, b]
    case ConstAdd(a, _) => [a]
    case ConstMul(a, _) => [a]
    case Mul2(a, b) => [a, b]
    case Mul3(a, b, c) => [a, b, c]
    case Mul4(a, b, c, d) => [a, b, c, d]
    case Unary(_, a) => [a]
    case Simd(_, xs, ys) => xs + ys
  }

  /** Gates that cost a round of communication. */
  predicate Interactive(g: Gate) {
    g.Mul2? || g.Mul3? || g.Mul4? || g.Unary? || g.Simd?
  }

  predicate Below(ws: seq<Wire>, n: nat) {
    forall i :: 0 <= i < |ws| ==> ws[i] < n
  }

  /** The builder's checks: operands are existing wires, vector operands pair up, and a
      unary gate is of a unary type. */
  predicate GateOk(g: Gate, n: nat) {
    match g
    case Inp => true
    case Lin(_, a, b) => a < n && b < n
    case ConstAdd(a, _) => a < n
    case ConstMul(a, _) => a < n
    case Mul2(a, b) => a < n && b < n
    case Mul3(a, b, c) => a < n && b < n && c < n
    case Mul4(a, b, c, d) => a < n && b < n && c < n && d < n
    case Unary(kind, a) => a < n && kind in {KRelu, KMsb, KEqz, KLtz}
    case Simd(_, xs, ys) => |xs| == |ys| && Below(xs, n) && Below(ys, n)
  }

  lemma GateOkBelow(g: Gate, n: nat)
    requires GateOk(g, n)
    ensures Below(Ins(g), n)
  {
  }

  /** What the builder guarantees: a gate only reads wires created before it. */
  ghost predicate WellFormed(gates: seq<Gate>) {
    forall i :: 0 <= i < |gates| ==> GateOk(gates[i], i)
  }

  // ---- creation-order semantics -------------------------------------------

  const TWO63: nat := 0x8000_0000_0000_0000
  const TWO64: nat := 0x1_0000_0000_0000_0000

  /** Bit 63 of the 64-bit image of a ring element. */
  function Bit63(v: nat): (b: nat)
    ensures b < 2
  {
    (v / TWO63) % 2
  }

  /** The sum of the products, reduced as it is accumulated. */
  function Dot(m: nat, xs: seq<Wire>, ys: seq<Wire>, vs: seq<int>): (r: nat)
    requires m > 0 && |xs| == |ys|
    requires Below(xs, |vs|) && Below(ys, |vs|)
    ensures r < m
  {
    if xs == [] then 0 else
      var k := |xs| - 1;
      Z.Add(m, Dot(m, xs[..k], ys[..k], vs), Z.Mul(m, vs[xs[k]], vs[ys[k]]))
  }

  predicate Reduced(m: nat, vs: seq<int>) {
    forall i :: 0 <= i < |vs| ==> 0 <= vs[i] < m
  }

  /** The value a gate computes from the values `vs` of the wires before it; `x` is the
      value its owner supplies when the gate is an input. */
  function GateVal(m: nat, g: Gate, vs: seq<int>, x: int): (r: int)
    requires m > 1 && GateOk(g, |vs|)
    requires Reduced(m, vs)
    ensures 0 <= r < m
  {
    match g
    case Inp => x % m
    case Lin(sub, a, b) => if sub then Z.Sub(m, vs[a], vs[b]) else Z.Add(m, vs[a], vs[b])
    case ConstAdd(a, k) => Z.Add(m, vs[a], k)
    case ConstMul(a, k) => Z.Mul(m, vs[a], k)
    case Mul2(a, b) => Z.Mul(m, vs[a], vs[b])
    case Mul3(a, b, c) => Z.Mul(m, Z.Mul(m, vs[a], vs[b]), vs[c])
    case Mul4(a, b, c, d) => Z.Mul(m, Z.Mul(m, Z.Mul(m, vs[a], vs[b]), vs[c]), vs[d])
    case Unary(kind, a) =>
      if kind == KEqz then (if vs[a] == 0 then 1 else 0)
      else if kind == KRelu then (if Bit63(vs[a]) == 1 then 0 else vs[a])
      else if m == 2 then vs[a]
      else Bit63(vs[a])
    case Simd(trunc, xs, ys) =>
      var s := Dot(m, xs, ys, vs);
      if trunc then (s % TWO64 / 65536) % m else s
  }

  /** The values of all wires, gate after gate in the order of creation. */
  function EvalAll(m: nat, gates: seq<Gate>, x: map<Wire, int>): (vs: seq<int>)
    requires m > 1 && WellFormed(gates)
    ensures |vs| == |gates|
    ensures Reduced(m, vs)
  {
    if gates == [] then [] else
      var k := |gates| - 1;
      var vs := EvalAll(m, gates[..k], x);
      vs + [GateVal(m, gates[k], vs, if k in x then x[k] else 0)]
  }

  lemma EvalAllPush(m: nat, gates: seq<Gate>, g: Gate, x: map<Wire, int>)
    requires m > 1 && WellFormed(gates) && GateOk(g, |gates|)
    ensures WellFormed(gates + [g])
    ensures EvalAll(m, gates + [g], x) == EvalAll(m, gates, x)
      + [GateVal(m, g, EvalAll(m, gates, x), if |gates| in x then x[|gates|] else 0)]
  {
    assert (gates + [g])[..|gates|] == gates;
  }

  /** Later gates do not disturb earlier wires. */
  lemma {:induction false} EvalAllPrefix(m: nat, gates: seq<Gate>, k: nat, x: map<Wire, int>)
    requires m > 1 && WellFormed(gates) && k <= |gates|
    ensures EvalAll(m, gates[..k], x) == EvalAll(m, gates, x)[..k]
  {
    if k == |gates| {
      assert gates[..k] == gates;
    } else {
      hide GateVal, GateOk, Reduced;
      var n := |gates| - 1;
      EvalAllPrefix(m, gates[..n], k, x);
      assert gates[..n][..k] == gates[..k];
      assert EvalAll(m, gates, x)[..n] == EvalAll(m, gates[..n], x);
    }
  }

  lemma {:induction false} DotPrefix(m: nat, xs: seq<Wire>, ys: seq<Wire>, vs: seq<int>, n: nat)
    requires m > 0 && |xs| == |ys| && n <= |vs|
    requires Below(xs, n) && Below(ys, n)
    ensures Dot(m, xs, ys, vs) == Dot(m, xs, ys, vs[..n])
  {
    if xs != [] {
      var k := |xs| - 1;
      DotPrefix(m, xs[..k], ys[..k], vs, n);
    }
  }

  /** Every wire satisfies its gate's equation over the whole valuation. */
  lemma EvalAllAt(m: nat, gates: seq<Gate>, x: map<Wire, int>, i: nat)
    requires m > 1 && WellFormed(gates) && i < |gates|
    ensures GateOk(gates[i], |gates|)
    ensures EvalAll(m, gates, x)[i] == GateVal(m, gates[i], EvalAll(m, gates, x), if i in x then x[i] else 0)
  {
    var vs := EvalAll(m, gates, x);
    EvalAllPrefix(m, gates, i, x);
    EvalAllPrefix(m, gates, i + 1, x);
    assert gates[..i + 1][..i] == gates[..i];
    assert vs[i] == vs[..i + 1][i];
    GateValPrefix(m, gates[i], vs, i, if i in x then x[i] else 0);
  }

  // ---- the operations, in integers ------------------------------------------------------------------

  function PairProducts(xs: seq<Wire>, ys: seq<Wire>, vs: seq<int>): (r: seq<int>)
    requires |xs| == |ys| && Below(xs, |vs|) && Below(ys, |vs|)
    ensures |r| == |xs| && forall k :: 0 <= k < |r| ==> r[k] == vs[xs[k]] * vs[ys[k]]
  {
    seq(|xs|, k requires 0 <= k < |xs| => vs[xs[k]] * vs[ys[k]])
  }

  lemma {:induction false} DotIsSum(m: nat, xs: seq<Wire>, ys: seq<Wire>, vs: seq<int>)
    requires m > 0 && |xs| == |ys| && Below(xs, |vs|) && Below(ys, |vs|)
    ensures Dot(m, xs, ys, vs) == Z.Sum(PairProducts(xs, ys, vs)) % m
  {
    if xs != [] {
      var k := |xs| - 1;
      DotIsSum(m, xs[..k], ys[..k], vs);
      var all, part, last := PairProducts(xs, ys, vs), PairProducts(xs[..k], ys[..k], vs), vs[xs[k]] * vs[ys[k]];
      assert all[..k] == part;
      Z.CongMod(m, Z.Sum(part));
      Z.CongMod(m, last);
      Z.CongAdd(m, Dot(m, xs[..k], ys[..k], vs), Z.Sum(part), Z.Mul(m, vs[xs[k]], vs[ys[k]]), last);
    }
  }

  lemma MulThree(m: nat, a: int, b: int, c: int)
    requires m > 0
    ensures Z.Mul(m, Z.Mul(m, a, b), c) == a * b * c % m
  {
    Z.CongMod(m, a * b);
    Z.CongScale(m, Z.Mul(m, a, b), a * b, c);
  }

  lemma MulFour(m: nat, a: int, b: int, c: int, d: int)
    requires m > 0
    ensures Z.Mul(m, Z.Mul(m, Z.Mul(m, a, b), c), d) == a * b * c * d % m
  {
    MulThree(m, a, b, c);
    Z.CongMod(m, a * b * c);
    Z.CongScale(m, a * b * c % m, a * b * c, d);
  }

  lemma TopBit(v: nat)
    requires v < TWO64
    ensures Bit63(v) == if v < TWO63 then 0 else 1
  {
  }

  lemma TruncatedSmall(m: nat, s: nat)
    requires m > 1 && m <= TWO64 && s < m
    ensures (s % TWO64 / 65536) % m == s / 65536
  {
    Z.ModUnique(TWO64, s, 0, s);
    Z.ModUnique(m, s / 65536, 0, s / 65536);
  }

  /** What every gate of a circuit over a ring of at most 2^64 elements computes, in integers
      modulo m: sums, products and scalar products; the test for zero; the word itself or 0 by
      its top bit; the top bit, or over the two-element ring the bit; and a scalar product
      without its last 16 binary places. */
  lemma EvalSays(m: nat, gates: seq<Gate>, x: map<Wire, int>, i: nat)
    requires 1 < m <= TWO64 && WellFormed(gates) && i < |gates|
    ensures GateOk(gates[i], |gates|)
    ensures var vs := EvalAll(m, gates, x);
      match gates[i]
      case Inp => vs[i] == (if i in x then x[i] else 0) % m
      case Lin(sub, a, b) => vs[i] == (if sub then vs[a] - vs[b] else vs[a] + vs[b]) % m
      case ConstAdd(a, k) => vs[i] == (vs[a] + k) % m
      case ConstMul(a, k) => vs[i] == vs[a] * k % m
      case Mul2(a, b) => vs[i] == vs[a] * vs[b] % m
      case Mul3(a, b, c) => vs[i] == vs[a] * vs[b] * vs[c] % m
      case Mul4(a, b, c, d) => vs[i] == vs[a] * vs[b] * vs[c] * vs[d] % m
      case Unary(kind, a) =>
        && (kind == KEqz ==> vs[i] == if vs[a] == 0 then 1 else 0)
        && (kind == KRelu ==> vs[i] == if vs[a] < TWO63 then vs[a] else 0)
        && (kind == KMsb || kind == KLtz ==>
              vs[i] == if m == 2 then vs[a] else if vs[a] < TWO63 then 0 else 1)
      case Simd(trunc, xs, ys) =>
        var s := Z.Sum(PairProducts(xs, ys, vs)) % m;
        vs[i] == if trunc then s / 65536 else s
  {
    EvalAllAt(m, gates, x, i);
    hide EvalAll, Z.Sum, Bit63, Dot, WellFormed;
    var vs := EvalAll(m, gates, x);
    match gates[i] {
      case Mul3(a, b, c) => MulThree(m, vs[a], vs[b], vs[c]);
      case Mul4(a, b, c, d) => MulFour(m, vs[a], vs[b], vs[c], vs[d]);
      case Unary(kind, a) => TopBit(vs[a]);
      case Simd(trunc, xs, ys) =>
        DotIsSum(m, xs, ys, vs);
        TruncatedSmall(m, Dot(m, xs, ys, vs));
      case _ =>
    }
  }

  lemma GateValPrefix(m: nat, g: Gate, vs: seq<int>, n: nat, x: int)
    requires m > 1 && n <= |vs| && GateOk(g, n)
    requires Reduced(m, vs)
    ensures GateOk(g, |vs|)
    ensures GateVal(m, g, vs[..n], x) == GateVal(m, g, vs, x)
  {
    if g.Simd? {
      DotPrefix(m, g.ins1, g.ins2, vs, n);
    }
  }

  // ---- levels ---------------------------------------------------------------

  function MaxLevel(ws: seq<Wire>, lv: seq<nat>): nat
    requires Below(ws, |lv|)
  {
    if ws == [] then 0 else
      var k := |ws| - 1;
      var r := MaxLevel(ws[..k], lv);
      if r < lv[ws[k]] then lv[ws[k]] else r
  }

  lemma {:induction false} MaxLevelBound(ws: seq<Wire>, lv: seq<nat>, i: nat)
    requires Below(ws, |lv|) && i < |ws|
    ensures lv[ws[i]] <= MaxLevel(ws, lv)
  {
    if i < |ws| - 1 {
      MaxLevelBound(ws[..|ws| - 1], lv, i);
    }
  }

  /** Inputs sit on level 0; an interactive gate one above its highest input; any other
      gate with its highest input. */
  function GateLevel(g: Gate, lv: seq<nat>): nat
    requires GateOk(g, |lv|)
  {
    GateOkBelow(g, |lv|);
    MaxLevel(Ins(g), lv) + if Interactive(g) then 1 else 0
  }

  function Levels(gates: seq<Gate>): (lv: seq<nat>)
    requires WellFormed(gates)
    ensures |lv| == |gates|
  {
    if gates == [] then [] else
      var k := |gates| - 1;
      var lv := Levels(gates[..k]);
      lv + [GateLevel(gates[k], lv)]
  }

  lemma {:induction false} LevelsPrefix(gates: seq<Gate>, k: nat)
    requires WellFormed(gates) && k <= |gates|
    ensures Levels(gates[..k]) == Levels(gates)[..k]
  {
    if k == |gates| {
      assert gates[..k] == gates;
    } else {
      hide GateOk, GateLevel;
      var n := |gates| - 1;
      LevelsPrefix(gates[..n], k);
      assert gates[..n][..k] == gates[..k];
      assert Levels(gates)[..n] == Levels(gates[..n]);
    }
  }

  lemma LevelsAt(gates: seq<Gate>, i: nat)
    requires WellFormed(gates) && i < |gates|
    ensures Levels(gates)[i] == GateLevel(gates[i], Levels(gates)[..i])
  {
    LevelsPrefix(gates, i);
    LevelsPrefix(gates, i + 1);
    assert gates[..i + 1][..i] == gates[..i];
    assert Levels(gates)[i] == Levels(gates)[..i + 1][i];
  }

  /** An input's level never exceeds its reader's, and is below it when the reader is
      interactive. */
  lemma LevelOfInput(gates: seq<Gate>, i: nat, w: Wire)
    requires WellFormed(gates) && i < |gates| && w in Ins(gates[i])
    ensures w < i
    ensures Levels(gates)[w] <= Levels(gates)[i]
    ensures Interactive(gates[i]) ==> Levels(gates)[w] < Levels(gates)[i]
  {
    LevelsAt(gates, i);
    GateOkBelow(gates[i], i);
    var k :| 0 <= k < |Ins(gates[i])| && Ins(gates[i])[k] == w;
    MaxLevelBound(Ins(gates[i]), Levels(gates)[..i], k);
  }

  function MaxOf(lv: seq<nat>): nat {
    if lv == [] then 0 else
      var k := |lv| - 1;
      var r := MaxOf(lv[..k]);
      if r < lv[k] then lv[k] else r
  }

  lemma {:induction false} MaxOfBound(lv: seq<nat>, i: nat)
    requires i < |lv|
    ensures lv[i] <= MaxOf(lv)
  {
    if i < |lv| - 1 {
      MaxOfBound(lv[..|lv| - 1], i);
    }
  }

  /** The wires of level l, in the order of creation. */
  function OnLevel(lv: seq<nat>, l: nat): seq<Wire> {
    if lv == [] then [] else
      var k := |lv| - 1;
      OnLevel(lv[..k], l) + if lv[k] == l then [k] else []
  }

  lemma {:induction false} OnLevelMember(lv: seq<nat>, l: nat, w: Wire)
    ensures w in OnLevel(lv, l) <==> w < |lv| && lv[w] == l
  {
    if lv != [] {
      OnLevelMember(lv[..|lv| - 1], l, w);
    }
  }

  lemma {:induction false} OnLevelRising(lv: seq<nat>, l: nat, i: nat, j: nat)
    requires i < j < |OnLevel(lv, l)|
    ensures OnLevel(lv, l)[i] < OnLevel(lv, l)[j]
  {
    var k := |lv| - 1;
    var rest := OnLevel(lv[..k], l);
    if j < |rest| {
      OnLevelRising(lv[..k], l, i, j);
    } else {
      OnLevelMember(lv[..k], l, rest[i]);
    }
  }

  lemma OnLevelSpec(lv: seq<nat>, l: nat)
    ensures forall w: Wire :: w in OnLevel(lv, l) <==> w < |lv| && lv[w] == l
    ensures forall i, j :: 0 <= i < j < |OnLevel(lv, l)| ==> OnLevel(lv, l)[i] < OnLevel(lv, l)[j]
  {
    hide OnLevel;
    forall w: Wire ensures w in OnLevel(lv, l) <==> w < |lv| && lv[w] == l {
      OnLevelMember(lv, l, w);
    }
    forall i, j | 0 <= i < j < |OnLevel(lv, l)| ensures OnLevel(lv, l)[i] < OnLevel(lv, l)[j] {
      OnLevelRising(lv, l, i, j);
    }
  }

  function ByLevel(lv: seq<nat>): (ls: seq<seq<Wire>>)
    ensures |ls| == MaxOf(lv) + 1
    ensures forall l :: 0 <= l < |ls| ==> ls[l] == OnLevel(lv, l)
  {
    seq(MaxOf(lv) + 1, l requires l >= 0 => OnLevel(lv, l))
  }

  // ---- no fewer rounds ---------------------------------------------------------------------------------

  /** Another way to number the gates by rounds: no gate before its inputs, and one that costs a
      round (a product, a scalar product or a test) behind them and not in round 0. */
  ghost predicate Rounds(gates: seq<Gate>, a: seq<nat>) {
    && |a| == |gates|
    && forall i :: 0 <= i < |gates| ==>
      && (forall w :: w in Ins(gates[i]) && w < |a| ==> a[w] <= a[i])
      && (gates[i].Mul2? || gates[i].Mul3? || gates[i].Mul4? || gates[i].Simd? || gates[i].Unary? ==>
            a[i] >= 1 && forall w :: w in Ins(gates[i]) && w < |a| ==> a[w] < a[i])
  }

  /** The levels are one such numbering ... */
  lemma LevelsAreRounds(gates: seq<Gate>)
    requires WellFormed(gates)
    ensures Rounds(gates, Levels(gates))
  {
    hide Levels, GateOk;
    var a := Levels(gates);
    forall i | 0 <= i < |gates|
      ensures forall w :: w in Ins(gates[i]) && w < |a| ==> a[w] <= a[i]
      ensures Interactive(gates[i]) ==> a[i] >= 1 && forall w :: w in Ins(gates[i]) && w < |a| ==> a[w] < a[i]
    {
      LevelsAt(gates, i);
      forall w | w in Ins(gates[i]) && w < |a| ensures a[w] <= a[i] && (Interactive(gates[i]) ==> a[w] < a[i]) {
        LevelOfInput(gates, i, w);
      }
    }
  }

  lemma {:induction false} MaxLevelLeast(ws: seq<Wire>, lv: seq<nat>, b: nat)
    requires Below(ws, |lv|) && forall i :: 0 <= i < |ws| ==> lv[ws[i]] <= b
    ensures MaxLevel(ws, lv) <= b
  {
    if ws != [] {
      MaxLevelLeast(ws[..|ws| - 1], lv, b);
    }
  }

  /** ... and the least: no numbering puts any gate on an earlier round. */
  lemma {:induction false} LevelsLeast(gates: seq<Gate>, a: seq<nat>, i: nat)
    requires WellFormed(gates) && Rounds(gates, a) && i < |gates|
    ensures Levels(gates)[i] <= a[i]
    decreases i
  {
    hide GateOk, Levels;
    var g, lv := gates[i], Levels(gates)[..i];
    LevelsAt(gates, i);
    GateOkBelow(g, i);
    forall k | 0 <= k < |Ins(g)| ensures lv[Ins(g)[k]] <= a[i] - if Interactive(g) then 1 else 0 {
      assert Ins(g)[k] in Ins(g);
      LevelsLeast(gates, a, Ins(g)[k]);
    }
    MaxLevelLeast(Ins(g), lv, a[i] - if Interactive(g) then 1 else 0);
  }

  lemma {:induction false} MaxOfLeast(lv: seq<nat>, b: nat)
    requires forall i :: 0 <= i < |lv| ==> lv[i] <= b
    ensures MaxOf(lv) <= b
  {
    if lv != [] {
      MaxOfLeast(lv[..|lv| - 1], b);
    }
  }

  /** So the level order has no more rounds than any other. */
  lemma DepthLeast(gates: seq<Gate>, a: seq<nat>, rounds: nat)
    requires WellFormed(gates) && Rounds(gates, a) && forall i :: 0 <= i < |gates| ==> a[i] <= rounds
    ensures |ByLevel(Levels(gates))| <= rounds + 1
  {
    forall i | 0 <= i < |gates| ensures Levels(gates)[i] <= rounds {
      LevelsLeast(gates, a, i);
    }
    MaxOfLeast(Levels(gates), rounds);
  }

  function Flatten(ls: seq<seq<Wire>>): (o: seq<Wire>)
  {
    if ls == [] then [] else Flatten(ls[..|ls| - 1]) + ls[|ls| - 1]
  }

  /** The gate in place j of level l has no other place, and its inputs are ready: they
      are on lower levels or, unless the gate is interactive, earlier on its own. */
  ghost predicate PlaceOk(gates: seq<Gate>, ls: seq<seq<Wire>>, l: nat, j: nat)
    requires l < |ls| && j < |ls[l]|
  {
    var w := ls[l][j];
    && w < |gates|
    && w !in Flatten(ls[..l])
    && w !in ls[l][..j]
    && forall i :: i in Ins(gates[w]) ==>
         i in Flatten(ls[..l]) || (!Interactive(gates[w]) && i in ls[l][..j])
  }

  /** What the evaluators need from a level order. */
  ghost predicate LevelOrdered(gates: seq<Gate>, ls: seq<seq<Wire>>) {
    && (forall w: Wire :: w < |gates| ==> w in Flatten(ls))
    && (forall l, j :: 0 <= l < |ls| && 0 <= j < |ls[l]| ==> PlaceOk(gates, ls, l, j))
  }

  lemma {:induction false} FlattenMember(lv: seq<nat>, n: nat, w: Wire)
    requires n <= MaxOf(lv) + 1
    ensures w in Flatten(ByLevel(lv)[..n]) <==> w < |lv| && lv[w] < n
  {
    if n > 0 {
      FlattenMember(lv, n - 1, w);
      assert ByLevel(lv)[..n][..n - 1] == ByLevel(lv)[..n - 1];
      assert ByLevel(lv)[..n][n - 1] == OnLevel(lv, n - 1);
      OnLevelSpec(lv, n - 1);
    }
  }

  lemma EarlierOnLevel(lv: seq<nat>, l: nat, j: nat, w: Wire)
    requires j < |OnLevel(lv, l)| && w < OnLevel(lv, l)[j] && w < |lv| && lv[w] == l
    ensures w in OnLevel(lv, l)[..j]
  {
    var ws := OnLevel(lv, l);
    OnLevelSpec(lv, l);
    assert w in ws;
    var k :| 0 <= k < |ws| && ws[k] == w;
    assert ws[..j][k] == w;
  }

  lemma ReadyOnLevel(gates: seq<Gate>, l: nat, j: nat, g: Wire, w: Wire)
    requires WellFormed(gates)
    requires l < |ByLevel(Levels(gates))| && j < |OnLevel(Levels(gates), l)|
    requires g == OnLevel(Levels(gates), l)[j] && g < |gates| && w in Ins(gates[g])
    ensures w in Flatten(ByLevel(Levels(gates))[..l])
         || (!Interactive(gates[g]) && w in OnLevel(Levels(gates), l)[..j])
  {
    var lv := Levels(gates);
    OnLevelSpec(lv, l);
    assert g in OnLevel(lv, l);
    LevelOfInput(gates, g, w);
    FlattenMember(lv, l, w);
    if lv[w] == l {
      EarlierOnLevel(lv, l, j, w);
    }
  }

  lemma LevelPlaceOk(gates: seq<Gate>, l: nat, j: nat)
    requires WellFormed(gates)
    requires l < |ByLevel(Levels(gates))| && j < |ByLevel(Levels(gates))[l]|
    ensures PlaceOk(gates, ByLevel(Levels(gates)), l, j)
  {
    var lv := Levels(gates);
    var ls := ByLevel(lv);
    var g := ls[l][j];
    OnLevelSpec(lv, l);
    assert g in OnLevel(lv, l);
    assert forall i, k :: 0 <= i < k < |ls[l]| ==> ls[l][i] < ls[l][k];
    FlattenMember(lv, l, g);
    forall w | w in Ins(gates[g])
      ensures w in Flatten(ls[..l]) || (!Interactive(gates[g]) && w in ls[l][..j])
    {
      ReadyOnLevel(gates, l, j, g, w);
    }
  }

  /** Ordering gates by level keeps every dependency. */
  lemma LevelOrderSound(gates: seq<Gate>)
    requires WellFormed(gates)
    ensures LevelOrdered(gates, ByLevel(Levels(gates)))
  {
    var lv := Levels(gates);
    var ls := ByLevel(lv);
    assert ls[..|ls|] == ls;
    forall w: Wire | w < |gates| ensures w in Flatten(ls) {
      MaxOfBound(lv, w);
      FlattenMember(lv, |ls|, w);
    }
    forall l, j | 0 <= l < |ls| && 0 <= j < |ls[l]| ensures PlaceOk(gates, ls, l, j) {
      LevelPlaceOk(gates, l, j);
    }
  }

  function Iota(n: nat): (s: seq<Wire>)
    ensures |s| == n && forall i :: 0 <= i < n ==> s[i] == i
  {
    seq(n, i requires i >= 0 => i)
  }

  /** The level order is a rearrangement: no gate is lost and none is repeated. */
  lemma LevelOrderIsPermutation(gates: seq<Gate>)
    requires WellFormed(gates)
    ensures multiset(Flatten(ByLevel(Levels(gates)))) == multiset(Iota(|gates|))
  {
    hide GateOk, LevelOrdered, Levels, OnLevel, Flatten;
    var ls := ByLevel(Levels(gates));
    var o := Flatten(ls);
    LevelOrderSound(gates);
    FlattenOnce(gates, ls, |ls|);
    assert ls[..|ls|] == ls;
    var mo: multiset<Wire>, mi: multiset<Wire> := multiset(o), multiset(Iota(|gates|));
    forall w: Wire ensures mo[w] == mi[w] {
      CountDistinct(o, w);
      CountDistinct(Iota(|gates|), w);
      FlattenMember(Levels(gates), |ls|, w);
      if w < |gates| {
        MaxOfBound(Levels(gates), w);
      }
      assert w < |gates| ==> Iota(|gates|)[w] == w;
    }
  }

  ghost predicate Distinct(s: seq<Wire>) {
    forall i, j :: 0 <= i < j < |s| ==> s[i] != s[j]
  }

  lemma {:induction false} CountDistinct(s: seq<Wire>, w: Wire)
    requires Distinct(s)
    ensures var ms: multiset<Wire> := multiset(s); ms[w] == if w in s then 1 else 0
  {
    if s != [] {
      var t := s[..|s| - 1];
      assert s == t + [s[|s| - 1]];
      CountDistinct(t, w);
    }
  }

  lemma {:induction false} FlattenOnce(gates: seq<Gate>, ls: seq<seq<Wire>>, n: nat)
    requires LevelOrdered(gates, ls) && n <= |ls|
    ensures Distinct(Flatten(ls[..n]))
  {
    if n > 0 {
      FlattenOnce(gates, ls, n - 1);
      assert ls[..n][..n - 1] == ls[..n - 1];
      var lo, hi := Flatten(ls[..n - 1]), ls[n - 1];
      assert Flatten(ls[..n]) == lo + hi;
      forall i, j | 0 <= i < j < |lo + hi| ensures (lo + hi)[i] != (lo + hi)[j] {
        if |lo| <= i {
          assert PlaceOk(gates, ls, n - 1, j - |lo|);
          assert hi[..j - |lo|][i - |lo|] == hi[i - |lo|];
        } else if |lo| <= j {
          assert PlaceOk(gates, ls, n - 1, j - |lo|);
          assert lo[i] in lo;
        }
      }
    }
  }
}
