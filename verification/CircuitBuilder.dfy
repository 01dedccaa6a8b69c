/** The circuit object: gates are appended one by one, ordered by level, evaluated. */
module CircuitBuilder {
  import opened Wrappers
  import opened Counting
  import opened Circuits
  import Z = ZMod

  datatype EvalError = WrongInputCount | MissingInput | InvalidForBool

  datatype LevelOrderedCircuit = LevelOrderedCircuit(
    numGates: nat, count: map<GateType, nat>, outputs: seq<Wire>, gatesByLevel: seq<seq<Wire>>)

  /** The type a gate was added with. */
  function TypeOf(g: Gate): GateType {
    match g
    case Inp => KInp
    case Lin(sub, _, _) => if sub then KSub else KAdd
    case ConstAdd(_, _) => KConstAdd
    case ConstMul(_, _) => KConstMul
    case Mul2(_, _) => KMul
    case Mul3(_, _, _) => KMul3
    case Mul4(_, _, _, _) => KMul4
    case Unary(kind, _) => kind
    case Simd(trunc, _, _) => if trunc then KTrdotp else KDotprod
  }

  /** How many gates are of type t. */
  function CountOf(gates: seq<Gate>, t: GateType): nat {
    if gates == [] then 0 else
      CountOf(gates[..|gates| - 1], t) + if TypeOf(gates[|gates| - 1]) == t then 1 else 0
  }

  /** It is the number of places of such gates. */
  lemma {:induction false} CountIsSize(gates: seq<Gate>, t: GateType)
    ensures CountOf(gates, t) == |set i: nat | i < |gates| && TypeOf(gates[i]) == t|
  {
    if gates != [] {
      var n := |gates| - 1;
      CountIsSize(gates[..n], t);
      hide TypeOf;
      var before, all := set i: nat | i < |gates[..n]| && TypeOf(gates[..n][i]) == t,
                         set i: nat | i < |gates| && TypeOf(gates[i]) == t;
      CountNext(before, all, n, TypeOf(gates[n]) == t);
    }
  }

  /** All counts at once. */
  ghost predicate CountsAre(gates: seq<Gate>, count: map<GateType, nat>) {
    forall t: GateType :: t in count && count[t] == CountOf(gates, t)
  }

  function InputCount(gates: seq<Gate>): nat {
    CountOf(gates, KInp)
  }

  const NO_GATES: map<GateType, nat> :=
    map[KInp := 0, KAdd := 0, KMul := 0, KMul3 := 0, KMul4 := 0, KSub := 0, KConstAdd := 0, KConstMul := 0,
        KRelu := 0, KMsb := 0, KEqz := 0, KLtz := 0, KDotprod := 0, KTrdotp := 0]

  lemma CountsStart(gates: seq<Gate>)
    ensures CountsAre(gates[..0], NO_GATES)
  {
    forall t: GateType ensures t in NO_GATES && NO_GATES[t] == CountOf(gates[..0], t) {
      match t {
        case KInp =>
        case KAdd =>
        case KMul =>
        case KMul3 =>
        case KMul4 =>
        case KSub =>
        case KConstAdd =>
        case KConstMul =>
        case KRelu =>
        case KMsb =>
        case KEqz =>
        case KLtz =>
        case KDotprod =>
        case KTrdotp =>
      }
    }
  }

  lemma CountsStep(gates: seq<Gate>, i: nat, count: map<GateType, nat>)
    requires i < |gates| && CountsAre(gates[..i], count)
    ensures TypeOf(gates[i]) in count
    ensures CountsAre(gates[..i + 1], count[TypeOf(gates[i]) := count[TypeOf(gates[i])] + 1])
  {
    assert gates[..i + 1][..i] == gates[..i];
  }

  /** The gates `evaluate` refuses when the ring is the Boolean one. */
  predicate Refused(m: nat, g: Gate) {
    m == 2 && ((g.Unary? && g.kind == KRelu) || (g.Simd? && g.trunc))
  }

  /** What plaintext evaluation needs of its arguments. */
  ghost predicate Evaluable(m: nat, gates: seq<Gate>, x: map<Wire, int>) {
    && |x| == InputCount(gates)
    && (forall i :: 0 <= i < |gates| && gates[i].Inp? ==> i in x)
    && (forall i :: 0 <= i < |gates| ==> !Refused(m, gates[i]))
  }

  lemma EvaluableIff(m: nat, gates: seq<Gate>, x: map<Wire, int>)
    ensures Evaluable(m, gates, x) <==>
      && |x| == |set i: nat | i < |gates| && TypeOf(gates[i]) == KInp|
      && (forall i :: 0 <= i < |gates| && gates[i].Inp? ==> i in x)
      && (m == 2 ==> forall i :: 0 <= i < |gates| ==>
            !(gates[i].Unary? && gates[i].kind == KRelu) && !(gates[i].Simd? && gates[i].trunc))
  {
    CountIsSize(gates, KInp);
  }

  function Outputs(m: nat, gates: seq<Gate>, outputs: seq<Wire>, x: map<Wire, int>): seq<int>
    requires m > 1 && WellFormed(gates) && Below(outputs, |gates|)
  {
    var vs := EvalAll(m, gates, x);
    seq(|outputs|, i requires 0 <= i < |outputs| => vs[outputs[i]])
  }

  class Circuit {
    var gates: seq<Gate>
    var outputs: seq<Wire>

    ghost predicate Valid()
      reads this
    {
      WellFormed(gates) && Below(outputs, |gates|)
    }

    constructor ()
      ensures Valid() && gates == [] && outputs == []
    {
      gates, outputs := [], [];
    }

    method NewInputWire() returns (w: Wire)
      requires Valid()
      modifies this
      ensures Valid() && outputs == old(outputs)
      ensures w == |old(gates)| && gates == old(gates) + [Inp]
      ensures TypeOf(gates[w]) == KInp
    {
      w := |gates|;
      gates := gates + [Inp];
    }

    method SetAsOutput(w: Wire) returns (ok: bool)
      requires Valid()
      modifies this
      ensures Valid() && gates == old(gates)
      ensures ok <==> w < |gates|
      ensures outputs == if ok then old(outputs) + [w] else old(outputs)
    {
      ok := w < |gates|;
      if ok {
        outputs := outputs + [w];
      }
    }

    /** Appends a gate whose operands exist; anything else is refused and changes nothing. */
    method Append(g: Gate) returns (r: Option<Wire>)
      requires Valid()
      modifies this
      ensures Valid() && outputs == old(outputs)
      ensures r.Some? <==> GateOk(g, |old(gates)|)
      ensures r.Some? ==> r.value == |old(gates)| && gates == old(gates) + [g]
      ensures r.None? ==> gates == old(gates)
    {
      if !GateOk(g, |gates|) {
        return None;
      }
      r := Some(|gates|);
      gates := gates + [g];
    }

    method AddGate2(kind: GateType, in1: Wire, in2: Wire) returns (r: Option<Wire>)
      requires Valid()
      modifies this
      ensures Valid() && outputs == old(outputs)
      ensures r.Some? <==> kind in {KAdd, KMul, KSub} && in1 < |old(gates)| && in2 < |old(gates)|
      ensures r.Some? ==> r.value == |old(gates)|
      ensures r.Some? ==> gates == old(gates) + [if kind == KMul then Mul2(in1, in2) else Lin(kind == KSub, in1, in2)]
      ensures r.Some? ==> TypeOf(gates[r.value]) == kind
      ensures r.None? ==> gates == old(gates)
    {
      if kind !in {KAdd, KMul, KSub} {
        return None;
      }
      r := Append(if kind == KMul then Mul2(in1, in2) else Lin(kind == KSub, in1, in2));
    }

    method AddConstOpGate(kind: GateType, w: Wire, cval: int) returns (r: Option<Wire>)
      requires Valid()
      modifies this
      ensures Valid() && outputs == old(outputs)
      ensures r.Some? <==> kind in {KConstAdd, KConstMul} && w < |old(gates)|
      ensures r.Some? ==> r.value == |old(gates)|
      ensures r.Some? ==> gates == old(gates) + [if kind == KConstAdd then ConstAdd(w, cval) else ConstMul(w, cval)]
      ensures r.Some? ==> TypeOf(gates[r.value]) == kind
      ensures r.None? ==> gates == old(gates)
    {
      if kind !in {KConstAdd, KConstMul} {
        return None;
      }
      r := Append(if kind == KConstAdd then ConstAdd(w, cval) else ConstMul(w, cval));
    }

    method AddGate3(kind: GateType, in1: Wire, in2: Wire, in3: Wire) returns (r: Option<Wire>)
      requires Valid()
      modifies this
      ensures Valid() && outputs == old(outputs)
      ensures r.Some? <==> kind == KMul3 && in1 < |old(gates)| && in2 < |old(gates)| && in3 < |old(gates)|
      ensures r.Some? ==> r.value == |old(gates)| && gates == old(gates) + [Mul3(in1, in2, in3)]
      ensures r.Some? ==> TypeOf(gates[r.value]) == kind
      ensures r.None? ==> gates == old(gates)
    {
      if kind != KMul3 {
        return None;
      }
      r := Append(Mul3(in1, in2, in3));
    }

    method AddGate4(kind: GateType, in1: Wire, in2: Wire, in3: Wire, in4: Wire) returns (r: Option<Wire>)
      requires Valid()
      modifies this
      ensures Valid() && outputs == old(outputs)
      ensures r.Some? <==>
        kind == KMul4 && in1 < |old(gates)| && in2 < |old(gates)| && in3 < |old(gates)| && in4 < |old(gates)|
      ensures r.Some? ==> r.value == |old(gates)| && gates == old(gates) + [Mul4(in1, in2, in3, in4)]
      ensures r.Some? ==> TypeOf(gates[r.value]) == kind
      ensures r.None? ==> gates == old(gates)
    {
      if kind != KMul4 {
        return None;
      }
      r := Append(Mul4(in1, in2, in3, in4));
    }

    method AddGate1(kind: GateType, w: Wire) returns (r: Option<Wire>)
      requires Valid()
      modifies this
      ensures Valid() && outputs == old(outputs)
      ensures r.Some? <==> kind in {KRelu, KMsb, KEqz, KLtz} && w < |old(gates)|
      ensures r.Some? ==> r.value == |old(gates)| && gates == old(gates) + [Unary(kind, w)]
      ensures r.Some? ==> TypeOf(gates[r.value]) == kind
      ensures r.None? ==> gates == old(gates)
    {
      r := Append(Unary(kind, w));
    }

    /** A gate over two vectors, which must be of equal length. */
    method AddGateSimd(kind: GateType, ins1: seq<Wire>, ins2: seq<Wire>) returns (r: Option<Wire>)
      requires Valid()
      modifies this
      ensures Valid() && outputs == old(outputs)
      ensures r.Some? <==>
        kind in {KDotprod, KTrdotp} && |ins1| == |ins2| && Below(ins1, |old(gates)|) && Below(ins2, |old(gates)|)
      ensures r.Some? ==> r.value == |old(gates)| && gates == old(gates) + [Simd(kind == KTrdotp, ins1, ins2)]
      ensures r.Some? ==> TypeOf(gates[r.value]) == kind
      ensures r.None? ==> gates == old(gates)
    {
      if kind !in {KDotprod, KTrdotp} {
        return None;
      }
      r := Append(Simd(kind == KTrdotp, ins1, ins2));
    }

    /** Groups the gates by multiplicative level. */
    method OrderGatesByLevel() returns (res: LevelOrderedCircuit)
      requires Valid()
      ensures res.numGates == |gates| && res.outputs == outputs
      ensures CountsAre(gates, res.count)
      ensures res.gatesByLevel == ByLevel(Levels(gates))
      ensures LevelOrdered(gates, res.gatesByLevel)
    {
      hide GateOk, Levels, MaxOf, LevelOrdered, GateLevel, CountOf, TypeOf;
      var gateLevel, depth := GateLevels(gates);
      ghost var lv := Levels(gates);
      var byLevel: seq<seq<Wire>> := seq(depth + 1, _ => []);
      var count := NO_GATES;
      CountsStart(gates);
      for i := 0 to |gates|
        invariant |byLevel| == depth + 1 && gateLevel[..] == lv
        invariant CountsAre(gates[..i], count)
        invariant forall l :: 0 <= l <= depth ==> byLevel[l] == OnLevel(lv[..i], l)
      {
        assert gates[..i + 1][..i] == gates[..i] && lv[..i + 1][..i] == lv[..i];
        assert gateLevel[..][i] == lv[i];
        MaxOfBound(lv, i);
        CountsStep(gates, i, count);
        count := count[TypeOf(gates[i]) := count[TypeOf(gates[i])] + 1];
        byLevel := byLevel[gateLevel[i] := byLevel[gateLevel[i]] + [i]];
      }
      assert lv[..|gates|] == lv && gates[..|gates|] == gates;
      res := LevelOrderedCircuit(|gates|, count, outputs, byLevel);
      LevelOrderSound(gates);
    }

    /** Plaintext evaluation: level by level, gate by gate.  The answer is the one
        creation order gives. */
    method Evaluate(m: nat, x: map<Wire, int>) returns (r: Result<seq<int>, EvalError>)
      requires Valid() && m > 1
      ensures r.Ok? <==> Evaluable(m, gates, x)
      ensures r.Ok? <==>
        && |x| == |set i: nat | i < |gates| && TypeOf(gates[i]) == KInp|
        && (forall i :: 0 <= i < |gates| && gates[i].Inp? ==> i in x)
        && (m == 2 ==> forall i :: 0 <= i < |gates| ==>
              !(gates[i].Unary? && gates[i].kind == KRelu) && !(gates[i].Simd? && gates[i].trunc))
      ensures r.Ok? ==> r.value == Outputs(m, gates, outputs, x)
      ensures r == Err(WrongInputCount) <==> |x| != InputCount(gates)
    {
      EvaluableIff(m, gates, x);
      hide GateOk, GateVal, Levels;
      var circ := OrderGatesByLevel();
      if |x| != circ.count[KInp] {
        return Err(WrongInputCount);
      }
      var wires := new int[|gates|](_ => 0);
      var ls := circ.gatesByLevel;
      for l := 0 to |ls|
        invariant Evaluated(m, gates, x, wires[..], Flatten(ls[..l]))
      {
        var e := EvaluateLevel(m, gates, x, ls[l], wires, ls, l);
        if e.Some? {
          return Err(e.value);
        }
        assert ls[..l + 1][..l] == ls[..l];
      }
      assert ls[..|ls|] == ls;
      EvaluatedFits(m, gates, x, wires[..], Flatten(ls));
      var out := ReadWires(wires, outputs);
      r := Ok(out);
    }
  }

  method ReadWires(wires: array<int>, ws: seq<Wire>) returns (out: seq<int>)
    requires Below(ws, wires.Length)
    ensures |out| == |ws| && forall i :: 0 <= i < |ws| ==> out[i] == wires[ws[i]]
  {
    out := [];
    for i := 0 to |ws|
      invariant |out| == i && forall k :: 0 <= k < i ==> out[k] == wires[ws[k]]
    {
      out := out + [wires[ws[i]]];
    }
  }

  /** One level of the evaluation: fills the level's wires, or stops at the first gate
      that cannot be evaluated. */
  method EvaluateLevel(m: nat, gates: seq<Gate>, x: map<Wire, int>, level: seq<Wire>, wires: array<int>,
                       ghost ls: seq<seq<Wire>>, ghost l: nat)
    returns (e: Option<EvalError>)
    requires m > 1 && WellFormed(gates) && LevelOrdered(gates, ls) && l < |ls| && level == ls[l]
    requires Evaluated(m, gates, x, wires[..], Flatten(ls[..l]))
    modifies wires
    ensures e.None? ==> Evaluated(m, gates, x, wires[..], Flatten(ls[..l]) + level)
    ensures e.Some? ==> e.value != WrongInputCount
    ensures e.Some? ==> exists w: Wire :: w < |gates| && !Fits(m, w, gates, x)
  {
    ghost var done, table := Flatten(ls[..l]), wires[..];
    assert Flatten(ls[..l]) + level[..0] == done;
    for j := 0 to |level|
      invariant wires[..] == table
      invariant done == Flatten(ls[..l]) + level[..j]
      invariant Evaluated(m, gates, x, table, done)
    {
      assert PlaceOk(gates, ls, l, j);
      var w := level[j];
      if gates[w].Inp? && w !in x {
        assert !Fits(m, w, gates, x);
        return Some(MissingInput);
      }
      if Refused(m, gates[w]) {
        assert !Fits(m, w, gates, x);
        return Some(InvalidForBool);
      }
      EvaluatedStep(m, gates, x, table, done, w);
      var v := EvalGate(m, gates[w], wires, w, if w in x then x[w] else 0);
      wires[w] := v;
      table := table[w := v];
      done := done + [w];
      assert level[..j + 1] == level[..j] + [w];
    }
    assert level[..|level|] == level;
    e := None;
  }

  /** The wire table after the gates in `done`: their wires hold the value creation order
      gives, every other wire is still zero. */
  ghost predicate Evaluated(m: nat, gates: seq<Gate>, x: map<Wire, int>, wires: seq<int>, done: seq<Wire>)
    requires m > 1 && WellFormed(gates)
  {
    && |wires| == |gates| && Reduced(m, wires)
    && (forall w :: w in done ==> w < |gates| && Fits(m, w, gates, x))
    && (forall w: Wire :: w < |gates| ==> wires[w] == if w in done then EvalAll(m, gates, x)[w] else 0)
  }

  ghost predicate Fits(m: nat, w: Wire, gates: seq<Gate>, x: map<Wire, int>)
    requires w < |gates|
  {
    !Refused(m, gates[w]) && (gates[w].Inp? ==> w in x)
  }

  lemma EvaluatedStep(m: nat, gates: seq<Gate>, x: map<Wire, int>, wires: seq<int>, done: seq<Wire>, w: Wire)
    requires m > 1 && WellFormed(gates) && Evaluated(m, gates, x, wires, done)
    requires w < |gates| && w !in done && Fits(m, w, gates, x)
    requires forall i :: i in Ins(gates[w]) ==> i in done
    ensures GateOk(gates[w], |gates|)
    ensures Evaluated(m, gates, x,
              wires[w := GateVal(m, gates[w], wires, if w in x then x[w] else 0)], done + [w])
  {
    EvalAllAt(m, gates, x, w);
    GateValAgree(m, gates[w], EvalAll(m, gates, x), wires, if w in x then x[w] else 0);
  }

  lemma EvaluatedFits(m: nat, gates: seq<Gate>, x: map<Wire, int>, wires: seq<int>, done: seq<Wire>)
    requires m > 1 && WellFormed(gates) && Evaluated(m, gates, x, wires, done)
    requires |x| == InputCount(gates)
    requires forall w: Wire :: w < |gates| ==> w in done
    ensures Evaluable(m, gates, x) && wires == EvalAll(m, gates, x)
  {
    forall i | 0 <= i < |gates|
      ensures !Refused(m, gates[i]) && (gates[i].Inp? ==> i in x)
    {
      assert i in done;
    }
  }

  /** The level of every gate, filled in creation order, and the deepest one. */
  method GateLevels(gates: seq<Gate>) returns (gateLevel: array<nat>, depth: nat)
    requires WellFormed(gates)
    ensures fresh(gateLevel) && gateLevel[..] == Levels(gates)
    ensures depth == MaxOf(Levels(gates))
  {
    hide Levels, GateLevel, MaxOf, GateOk;
    LevelsNone(gates);
    gateLevel := new nat[|gates|](_ => 0);
    depth := 0;
    ghost var lv: seq<nat> := [];
    for i := 0 to |gates|
      invariant gateLevel[..i] == lv
      invariant lv == Levels(gates[..i])
      invariant depth == MaxOf(lv)
    {
      var level := LevelOfGate(gates[i], gateLevel, i);
      gateLevel[i] := level;
      LevelsStep(gates, i);
      MaxOfStep(lv, level);
      lv := lv + [level];
      assert gateLevel[..i + 1] == lv;
      depth := if depth < level then level else depth;
    }
    assert gates[..|gates|] == gates && gateLevel[..] == gateLevel[..|gates|];
  }

  lemma LevelsNone(gates: seq<Gate>)
    requires WellFormed(gates)
    ensures Levels(gates[..0]) == [] && MaxOf([]) == 0
  {
  }

  lemma MaxOfStep(lv: seq<nat>, l: nat)
    ensures MaxOf(lv + [l]) == if MaxOf(lv) < l then l else MaxOf(lv)
  {
    assert (lv + [l])[..|lv|] == lv;
  }

  lemma LevelsStep(gates: seq<Gate>, i: nat)
    requires WellFormed(gates) && i < |gates|
    ensures Levels(gates[..i + 1]) == Levels(gates[..i]) + [GateLevel(gates[i], Levels(gates[..i]))]
  {
    assert gates[..i + 1][..i] == gates[..i];
  }

  method LevelOfGate(g: Gate, gateLevel: array<nat>, n: nat) returns (level: nat)
    requires n <= gateLevel.Length && GateOk(g, n)
    ensures level == GateLevel(g, gateLevel[..n])
  {
    var ws := Ins(g);
    level := 0;
    for k := 0 to |ws|
      invariant level == MaxLevel(ws[..k], gateLevel[..n])
    {
      assert ws[..k + 1][..k] == ws[..k];
      if level < gateLevel[ws[k]] {
        level := gateLevel[ws[k]];
      }
    }
    assert ws[..|ws|] == ws;
    if Interactive(g) {
      level := level + 1;
    }
  }

  lemma {:induction false} DotAgree(m: nat, xs: seq<Wire>, ys: seq<Wire>, us: seq<int>, vs: seq<int>)
    requires m > 0 && |xs| == |ys| && |us| == |vs| && Below(xs, |us|) && Below(ys, |us|)
    requires forall i :: 0 <= i < |xs| ==> us[xs[i]] == vs[xs[i]] && us[ys[i]] == vs[ys[i]]
    ensures Dot(m, xs, ys, us) == Dot(m, xs, ys, vs)
  {
    if xs != [] {
      var k := |xs| - 1;
      DotAgree(m, xs[..k], ys[..k], us, vs);
    }
  }

  /** A gate's value depends on its inputs alone. */
  lemma GateValAgree(m: nat, g: Gate, us: seq<int>, vs: seq<int>, x: int)
    requires m > 1 && |us| == |vs| && GateOk(g, |us|) && Reduced(m, us) && Reduced(m, vs)
    requires forall w :: w in Ins(g) ==> us[w] == vs[w]
    ensures GateVal(m, g, us, x) == GateVal(m, g, vs, x)
  {
    var ins := Ins(g);
    assert forall i :: 0 <= i < |ins| ==> ins[i] in ins;
    if g.Simd? {
      var n := |g.ins1|;
      assert forall i :: 0 <= i < n ==> ins[i] == g.ins1[i] && ins[n + i] == g.ins2[i];
      DotAgree(m, g.ins1, g.ins2, us, vs);
    }
  }

  /** One gate over the wire table; a vector gate accumulates into its own wire. */
  method EvalGate(m: nat, g: Gate, wires: array<int>, out: Wire, x: int) returns (v: int)
    requires m > 1 && out < wires.Length && wires[out] == 0
    requires GateOk(g, wires.Length) && Reduced(m, wires[..])
    ensures v == GateVal(m, g, wires[..], x)
  {
    match g {
      case Inp => v := x % m;
      case Lin(sub, a, b) => v := if sub then (wires[a] - wires[b]) % m else (wires[a] + wires[b]) % m;
      case ConstAdd(a, k) => v := (wires[a] + k) % m;
      case ConstMul(a, k) => v := (wires[a] * k) % m;
      case Mul2(a, b) => v := (wires[a] * wires[b]) % m;
      case Mul3(a, b, c) => v := ((wires[a] * wires[b]) % m * wires[c]) % m;
      case Mul4(a, b, c, d) => v := (((wires[a] * wires[b]) % m * wires[c]) % m * wires[d]) % m;
      case Unary(kind, a) =>
        var b := Bit63(wires[a]);
        if kind == KEqz {
          v := if wires[a] == 0 then 1 else 0;
        } else if kind == KRelu {
          v := if b == 1 then 0 else wires[a];
        } else {
          v := if m == 2 then wires[a] else b;
        }
      case Simd(trunc, xs, ys) =>
        v := wires[out];
        for i := 0 to |xs|
          invariant v == Dot(m, xs[..i], ys[..i], wires[..])
        {
          assert xs[..i + 1][..i] == xs[..i] && ys[..i + 1][..i] == ys[..i];
          v := (v + (wires[xs[i]] * wires[ys[i]]) % m) % m;
        }
        assert xs[..|xs|] == xs && ys[..|ys|] == ys;
        if trunc {
          v := (v % TWO64 / 65536) % m;
        }
    }
  }
}
