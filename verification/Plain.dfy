/** What the protocol is to compute: plain evaluation, with the protocol's own reading of a
    less-than-zero gate, and exactly when that is the plaintext evaluator's reading. */
module PlainEvaluation {
  import opened Circuits
  import opened Preprocess
  import opened Masking
  import opened LtzArithmetic
  import opened LtzProtocol

  /** What is added to the openings of comparisons. */
  type Changes = Wire -> int

  /** The value of a gate; a comparison tests for the upper half of the field, and e is added
      to its opening. */
  function PlainVal(m: nat, g: Gate, vs: seq<int>, x: int, e: int): (r: int)
    requires m > 1 && GateOk(g, |vs|) && Reduced(m, vs)
    ensures 0 <= r < m
  {
    if g.Unary? then ComparedVal(m, vs[g.inp], e) else GateVal(m, g, vs, x)
  }

  /** The values of all wires when the given changes are made to comparisons. */
  function ChangedAll(m: nat, gates: seq<Gate>, x: map<Wire, int>, e: Changes): (vs: seq<int>)
    requires m > 1 && WellFormed(gates)
    ensures |vs| == |gates| && Reduced(m, vs)
  {
    if gates == [] then [] else
      var k := |gates| - 1;
      var vs := ChangedAll(m, gates[..k], x, e);
      vs + [PlainVal(m, gates[k], vs, if k in x then x[k] else 0, e(k))]
  }

  /** The values of all wires when nothing is changed. */
  function PlainAll(m: nat, gates: seq<Gate>, x: map<Wire, int>): (vs: seq<int>)
    requires m > 1 && WellFormed(gates)
    ensures |vs| == |gates| && Reduced(m, vs)
  {
    ChangedAll(m, gates, x, _ => 0)
  }

  lemma {:induction false} ChangedPrefix(m: nat, gates: seq<Gate>, k: nat, x: map<Wire, int>, e: Changes)
    requires m > 1 && WellFormed(gates) && k <= |gates|
    ensures ChangedAll(m, gates[..k], x, e) == ChangedAll(m, gates, x, e)[..k]
  {
    hide PlainVal, GateOk, Reduced;
    if k == |gates| {
      assert gates[..k] == gates;
    } else {
      var n := |gates| - 1;
      ChangedPrefix(m, gates[..n], k, x, e);
      assert gates[..n][..k] == gates[..k];
      assert ChangedAll(m, gates, x, e)[..n] == ChangedAll(m, gates[..n], x, e);
    }
  }

  lemma PlainValPrefix(m: nat, g: Gate, vs: seq<int>, n: nat, x: int, e: int)
    requires m > 1 && n <= |vs| && GateOk(g, n) && Reduced(m, vs)
    ensures GateOk(g, |vs|) && PlainVal(m, g, vs[..n], x, e) == PlainVal(m, g, vs, x, e)
  {
    GateValPrefix(m, g, vs, n, x);
  }

  /** Every wire satisfies its gate's equation over the whole valuation. */
  lemma ChangedAt(m: nat, gates: seq<Gate>, x: map<Wire, int>, e: Changes, i: nat)
    requires m > 1 && WellFormed(gates) && i < |gates|
    ensures GateOk(gates[i], |gates|)
    ensures ChangedAll(m, gates, x, e)[i]
         == PlainVal(m, gates[i], ChangedAll(m, gates, x, e), if i in x then x[i] else 0, e(i))
  {
    hide PlainVal;
    var vs := ChangedAll(m, gates, x, e);
    ChangedPrefix(m, gates, i, x, e);
    ChangedPrefix(m, gates, i + 1, x, e);
    assert gates[..i + 1][..i] == gates[..i];
    assert vs[i] == vs[..i + 1][i];
    PlainValPrefix(m, gates[i], vs, i, if i in x then x[i] else 0, e(i));
  }

  lemma PlainAt(m: nat, gates: seq<Gate>, x: map<Wire, int>, i: nat)
    requires m > 1 && WellFormed(gates) && i < |gates|
    ensures GateOk(gates[i], |gates|)
    ensures PlainAll(m, gates, x)[i] == PlainVal(m, gates[i], PlainAll(m, gates, x), if i in x then x[i] else 0, 0)
  {
    hide ChangedAll, PlainVal;
    ChangedAt(m, gates, x, _ => 0, i);
  }

  lemma ChangedComputes(m: nat, gates: seq<Gate>, x: map<Wire, int>, e: Changes)
    requires m > 1 && WellFormed(gates)
    ensures Computes(m, gates, ChangedAll(m, gates, x, e))
  {
    hide ChangedAll, WellFormed, GateOk, GateVal;
    var vs := ChangedAll(m, gates, x, e);
    forall w | 0 <= w < |gates| && Offline.Basic(gates[w]) && !gates[w].Inp?
      ensures GateOk(gates[w], |gates|)
      ensures vs[w] == GateVal(m, gates[w], vs, 0)
    {
      ChangedAt(m, gates, x, e, w);
      ValueIgnoresInput(m, gates[w], vs, if w in x then x[w] else 0);
    }
  }

  /** What counts is what is added to comparisons. */
  lemma {:induction false} SameChanges(m: nat, gates: seq<Gate>, x: map<Wire, int>, e1: Changes, e2: Changes)
    requires m > 1 && WellFormed(gates)
    requires forall w :: 0 <= w < |gates| && gates[w].Unary? ==> e1(w) == e2(w)
    ensures ChangedAll(m, gates, x, e1) == ChangedAll(m, gates, x, e2)
  {
    if gates != [] {
      var n := |gates| - 1;
      forall w | 0 <= w < n && gates[..n][w].Unary? ensures e1(w) == e2(w) {
        assert gates[..n][w] == gates[w];
      }
      SameChanges(m, gates[..n], x, e1, e2);
    }
  }

  /** Nothing is added to a comparison: its value is the test bit. */
  lemma ComparedAsIs(m: nat, v: int)
    requires m > 1
    ensures ComparedVal(m, v, 0) == HalfBit(m, v)
  {
  }

  // ---- agreement with the plaintext evaluator -------------------------------------------------

  /** A value in the upper half of the field whose bit 63 is not set: the protocol calls it
      negative, the plaintext evaluator does not. */
  predicate Misread(m: nat, v: int) {
    Half(m, v) && v < TWO63
  }

  lemma {:induction false} TwoToAdd(a: nat, b: nat)
    ensures TwoTo(a + b) == TwoTo(a) * TwoTo(b)
  {
    if b > 0 {
      TwoToAdd(a, b - 1);
      assert TwoTo(a + b) == 2 * TwoTo(a + (b - 1));
      assert TwoTo(a) * (2 * TwoTo(b - 1)) == 2 * (TwoTo(a) * TwoTo(b - 1));
    }
  }

  lemma TwoTo64()
    ensures TwoTo(64) == TWO64
  {
    assert TwoTo(1) == 2 && TwoTo(2) == 4;
    TwoToAdd(2, 2);
    TwoToAdd(4, 4);
    TwoToAdd(8, 8);
    TwoToAdd(16, 16);
    TwoToAdd(32, 32);
  }

  /** The two readings of a single value differ exactly there. */
  lemma ReadingsDiffer(m: nat, v: nat)
    requires FieldModulus(m) && v < m
    ensures HalfBit(m, v) == Bit63(v) <==> !Misread(m, v)
  {
    hide TwoTo;
    TwoTo64();
    if v < TWO63 {
      assert v / TWO63 == 0;
    } else {
      assert v / TWO63 == 1;
    }
  }

  ghost predicate NoMisread(m: nat, gates: seq<Gate>, vs: seq<int>)
    requires |vs| == |gates|
  {
    forall w :: 0 <= w < |gates| && gates[w].Unary? && gates[w].inp < |vs| ==> !Misread(m, vs[gates[w].inp])
  }

  lemma {:induction false} PlainIsEvalIf(m: nat, gates: seq<Gate>, x: map<Wire, int>)
    requires FieldModulus(m) && WellFormed(gates) && AllSupported(gates)
    requires NoMisread(m, gates, EvalAll(m, gates, x))
    ensures PlainAll(m, gates, x) == EvalAll(m, gates, x)
  {
    if gates != [] {
      var n := |gates| - 1;
      var es, g := EvalAll(m, gates[..n], x), gates[n];
      assert EvalAll(m, gates, x)[..n] == es;
      hide TwoTo, GateVal, Bit63, Misread, HalfBit, EvalAll, PlainAll, ComparedVal;
      assert NoMisread(m, gates[..n], es) by {
        forall w | 0 <= w < n && gates[w].Unary? ensures !Misread(m, es[gates[w].inp]) {
          assert gates[..n][w] == gates[w] && GateOk(gates[w], w);
          assert es[gates[w].inp] == EvalAll(m, gates, x)[gates[w].inp];
        }
      }
      PlainIsEvalIf(m, gates[..n], x);
      PlainPush(m, gates, x);
      if g.Unary? {
        assert !Misread(m, EvalAll(m, gates, x)[g.inp]) && es[g.inp] == EvalAll(m, gates, x)[g.inp];
        ReadingsDiffer(m, es[g.inp]);
        ComparedAsIs(m, es[g.inp]);
        LtzReading(m, g, es, if n in x then x[n] else 0);
      }
    }
  }

  lemma PlainPush(m: nat, gates: seq<Gate>, x: map<Wire, int>)
    requires m > 1 && WellFormed(gates) && gates != []
    ensures var n := |gates| - 1; var v := if n in x then x[n] else 0;
      && GateOk(gates[n], n)
      && PlainAll(m, gates, x) == PlainAll(m, gates[..n], x) + [PlainVal(m, gates[n], PlainAll(m, gates[..n], x), v, 0)]
      && EvalAll(m, gates, x) == EvalAll(m, gates[..n], x) + [GateVal(m, gates[n], EvalAll(m, gates[..n], x), v)]
  {
  }

  lemma LtzReading(m: nat, g: Gate, vs: seq<int>, v: int)
    requires m > 2 && g.Unary? && g.kind == KLtz && GateOk(g, |vs|) && Reduced(m, vs)
    ensures GateVal(m, g, vs, v) == Bit63(vs[g.inp])
  {
  }

  /** The protocol's plain values are the plaintext evaluator's if and only if no comparison
      gate reads a value where the two readings differ. */
  lemma PlainIsEval(m: nat, gates: seq<Gate>, x: map<Wire, int>)
    requires FieldModulus(m) && WellFormed(gates) && AllSupported(gates)
    ensures PlainAll(m, gates, x) == EvalAll(m, gates, x) <==> NoMisread(m, gates, EvalAll(m, gates, x))
  {
    var vs := EvalAll(m, gates, x);
    if NoMisread(m, gates, vs) {
      PlainIsEvalIf(m, gates, x);
    } else {
      hide TwoTo, GateVal, Bit63, Misread, HalfBit, EvalAll, PlainAll, GateOk, ComparedVal;
      var w :| 0 <= w < |gates| && gates[w].Unary? && gates[w].inp < |vs| && Misread(m, vs[gates[w].inp]);
      PlainAt(m, gates, x, w);
      EvalAllAt(m, gates, x, w);
      ReadingsDiffer(m, vs[gates[w].inp]);
      ComparedAsIs(m, vs[gates[w].inp]);
      LtzReading(m, gates[w], vs, if w in x then x[w] else 0);
    }
  }

  lemma SevenIsModulus()
    ensures FieldModulus(7)
  {
    TwoTo64();
    hide TwoTo;
  }

  /** One such input: 5 in the field of 7 elements. */
  lemma MisreadExample()
    ensures FieldModulus(7)
    ensures var gates, x := [Inp, Unary(KLtz, 0)], map[0 := 5];
      WellFormed(gates) && PlainAll(7, gates, x)[1] == 1 && EvalAll(7, gates, x)[1] == 0
  {
    SevenIsModulus();
    hide TwoTo, FieldModulus;
    var gates: seq<Gate>, x: map<Wire, int> := [Inp, Unary(KLtz, 0)], map[0 := 5];
    assert WellFormed(gates);
    assert gates[..1] == [Inp] && gates[..1][..0] == [];
    PlainPush(7, gates[..1], x);
    PlainPush(7, gates, x);
  }
}
