/** With which random factors a change to an opening enters the check, gate by gate. */
module OpeningWeights {
  import opened Counting
  import opened Circuits
  import opened Offline
  import opened Preprocess
  import opened Online
  import opened MacCheck
  import opened OnlineRun
  import opened OnlineMac
  import opened LtzProtocol
  import opened EndToEnd
  import opened ZMod

  // ---- what comes before ------------------------------------------------------------------------

  /** The gates of each kind among the first n of the traversal. */
  ghost function Muls(gates: seq<Gate>, ws: seq<Wire>, n: nat): set<nat>
    requires n <= |ws| && Below(ws, |gates|)
  {
    set j: nat | j < n && gates[ws[j]].Mul2?
  }

  ghost function Dots(gates: seq<Gate>, ws: seq<Wire>, n: nat): set<nat>
    requires n <= |ws| && Below(ws, |gates|)
  {
    set j: nat | j < n && gates[ws[j]].Simd? && !gates[ws[j]].trunc
  }

  ghost function Mul3s(gates: seq<Gate>, ws: seq<Wire>, n: nat): set<nat>
    requires n <= |ws| && Below(ws, |gates|)
  {
    set j: nat | j < n && gates[ws[j]].Mul3?
  }

  ghost function Mul4s(gates: seq<Gate>, ws: seq<Wire>, n: nat): set<nat>
    requires n <= |ws| && Below(ws, |gates|)
  {
    set j: nat | j < n && gates[ws[j]].Mul4?
  }

  lemma KindsNext(gates: seq<Gate>, ws: seq<Wire>, n: nat)
    requires n < |ws| && Below(ws, |gates|)
    ensures var g := gates[ws[n]];
      && |Muls(gates, ws, n + 1)| == |Muls(gates, ws, n)| + (if g.Mul2? then 1 else 0)
      && |Dots(gates, ws, n + 1)| == |Dots(gates, ws, n)| + (if g.Simd? && !g.trunc then 1 else 0)
      && |Mul3s(gates, ws, n + 1)| == |Mul3s(gates, ws, n)| + (if g.Mul3? then 1 else 0)
      && |Mul4s(gates, ws, n + 1)| == |Mul4s(gates, ws, n)| + (if g.Mul4? then 1 else 0)
  {
    var g := gates[ws[n]];
    CountNext(Muls(gates, ws, n), Muls(gates, ws, n + 1), n, g.Mul2?);
    CountNext(Dots(gates, ws, n), Dots(gates, ws, n + 1), n, g.Simd? && !g.trunc);
    CountNext(Mul3s(gates, ws, n), Mul3s(gates, ws, n + 1), n, g.Mul3?);
    CountNext(Mul4s(gates, ws, n), Mul4s(gates, ws, n + 1), n, g.Mul4?);
  }

  lemma KindsNone(gates: seq<Gate>, ws: seq<Wire>)
    requires Below(ws, |gates|)
    ensures |Muls(gates, ws, 0)| == |Dots(gates, ws, 0)| == |Mul3s(gates, ws, 0)| == |Mul4s(gates, ws, 0)| == 0
  {
  }

  /** Four factors were taken for each product before, three for each scalar product, two for
      each triple product and one for each of four factors. */
  lemma {:induction false} FactorsBefore(gates: seq<Gate>, ws: seq<Wire>, n: nat)
    requires n <= |ws| && Below(ws, |gates|)
    ensures ItemsOk(gates, Row(0, ws))
    ensures DrawsBefore(gates, Row(0, ws), n)
         == 4 * |Muls(gates, ws, n)| + 3 * |Dots(gates, ws, n)| + 2 * |Mul3s(gates, ws, n)| + |Mul4s(gates, ws, n)|
  {
    hide Muls, Dots, Mul3s, Mul4s;
    if n == 0 {
      KindsNone(gates, ws);
    } else {
      FactorsBefore(gates, ws, n - 1);
      KindsNext(gates, ws, n - 1);
    }
  }

  // ---- one change -----------------------------------------------------------------------------------

  /** Nothing is added to any opening but that of wire w. */
  ghost predicate OnlyAt(shift: Item -> int, w: Wire) {
    forall v: Wire :: v != w ==> shift(Item(0, v)) == 0
  }

  lemma {:induction false} OneShift(x: Ctx, ws: seq<Wire>, t: nat, n: nat, rho: nat -> int)
    requires Below(ws, |x.gates|) && t < |ws| && n <= |ws| && OnlyAt(x.shift, ws[t])
    requires forall j, k :: 0 <= j < k < |ws| ==> ws[j] != ws[k]
    ensures ItemsOk(x.gates, Row(0, ws))
    ensures var order := Row(0, ws);
      WeightedShifts(x, order, n, rho)
        == if n <= t then 0
           else Weight(rho, DrawsBefore(x.gates, order, t), Draws(x.gates[ws[t]])) * x.shift(Item(0, ws[t]))
  {
    hide Draws, DrawsBefore, Weight;
    if n > 0 {
      OneShift(x, ws, t, n - 1, rho);
      if n - 1 != t {
        var f := Weight(rho, DrawsBefore(x.gates, Row(0, ws), n - 1), Draws(x.gates[ws[n - 1]]));
        assert x.shift(Item(0, ws[n - 1])) == 0;
        assert f * 0 == 0;
      }
    }
  }

  lemma WeightIs(rho: nat -> int, s: nat)
    ensures Weight(rho, s, 4) == rho(s) + rho(s + 1) + rho(s + 2) + rho(s + 3)
    ensures Weight(rho, s, 3) == rho(s) + rho(s + 1) + rho(s + 2)
    ensures Weight(rho, s, 2) == rho(s) + rho(s + 1)
    ensures Weight(rho, s, 1) == rho(s)
    ensures Weight(rho, s, 0) == 0
  {
    assert Weight(rho, s, 1) == Weight(rho, s, 0) + rho(s);
    assert Weight(rho, s, 2) == Weight(rho, s, 1) + rho(s + 1);
    assert Weight(rho, s, 3) == Weight(rho, s, 2) + rho(s + 2);
  }

  /** The traversal of a session, each gate once. */
  lemma OrderOnce(s: Session)
    requires SessionOk(s)
    ensures Below(Flatten(LevelsOf(s.t)), |s.t.gates|)
    ensures var ws := Flatten(LevelsOf(s.t)); forall j, k :: 0 <= j < k < |ws| ==> ws[j] != ws[k]
  {
    hide LevelsOf, LevelOrdered, Flatten, WellFormed, FieldModulus, AllSupported;
    var ws := Flatten(LevelsOf(s.t));
    TaskRunOk(s.c, s.m, 0, s.t);
    OrderBelow(s.t.gates, ws);
    forall j, k | 0 <= j < k < |ws| ensures ws[j] != ws[k] {
      GateReady(s.c, 0, s.t.gates, Owned(s.t.owners), ws, k);
      assert ws[..k][j] == ws[j];
    }
  }

  /** The place in the stream of factors where a gate's begin. */
  ghost predicate FactorsFrom(s: Session, t: nat, start: nat)
    requires SessionOk(s) && Below(Flatten(LevelsOf(s.t)), |s.t.gates|) && t < |Flatten(LevelsOf(s.t))|
  {
    var gates, ws := s.t.gates, Flatten(LevelsOf(s.t));
    start == 4 * |Muls(gates, ws, t)| + 3 * |Dots(gates, ws, t)| + 2 * |Mul3s(gates, ws, t)| + |Mul4s(gates, ws, t)|
  }

  /** One change.  If e is added to the opening of the t-th gate of the traversal and to no
      other, the residue is the key times e times the sum of the gate's factors: four for a
      product, three for a scalar product, two for a triple product, one for a product of four,
      and they follow those of all gates before it. */
  lemma SingleChange(s: Session, lanes: nat, t: nat, e: int) returns (start: nat)
    requires SessionOk(s)
    requires var ws := Flatten(LevelsOf(s.t));
      t < |ws| && OnlyAt(s.shift, ws[t]) && s.shift(Item(0, ws[t])) == e
    ensures Below(Flatten(LevelsOf(s.t)), |s.t.gates|) && FactorsFrom(s, t, start) && s.m > 0
    ensures var g, key, rho, r := s.t.gates[Flatten(LevelsOf(s.t))[t]], KeysFor(s.c, 0, s.m).a.key, s.rho,
                                  SessionResidue(s, lanes);
      && (g.Mul2? ==> Cong(s.m, r, key * (e * (rho(start) + rho(start + 1) + rho(start + 2) + rho(start + 3)))))
      && (g.Simd? ==> Cong(s.m, r, key * (e * (rho(start) + rho(start + 1) + rho(start + 2)))))
      && (g.Mul3? ==> Cong(s.m, r, key * (e * (rho(start) + rho(start + 1)))))
      && (g.Mul4? ==> Cong(s.m, r, key * (e * rho(start))))
      && (!g.Mul2? && !g.Simd? && !g.Mul3? && !g.Mul4? ==> r == 0)
  {
    hide LevelsOf, LevelOrdered, Flatten, WellFormed, FieldModulus, SessionResidue, KeysFor, Weight, WeightedShifts,
         Cong, DrawsBefore, Muls, Dots, Mul3s, Mul4s;
    var ws, x := Flatten(LevelsOf(s.t)), FieldCtx(s.c, s.m, s.t, s.shift);
    OrderOnce(s);
    SessionResidueIs(s, lanes);
    OneShift(x, ws, t, |ws|, s.rho);
    FactorsBefore(s.t.gates, ws, t);
    start := DrawsBefore(s.t.gates, Row(0, ws), t);
    WeightIs(s.rho, start);
    SupportedAt(s, ws[t]);
    var g := s.t.gates[ws[t]];
    var w := Weight(s.rho, start, Draws(g));
    assert w * e == e * w;
    if w == 0 {
      ZeroTimes(s.m, SessionResidue(s, lanes), KeysFor(s.c, 0, s.m).a.key, e);
    }
  }

  lemma SupportedAt(s: Session, w: Wire)
    requires SessionOk(s) && w < |s.t.gates|
    ensures s.t.gates[w].Simd? ==> !s.t.gates[w].trunc
  {
  }

  lemma ZeroTimes(m: nat, r: int, key: int, e: int)
    requires m > 0 && 0 <= r < m && Cong(m, r, key * (0 * e))
    ensures r == 0
  {
    ZeroResidue(m, r, key);
  }

  lemma ZeroIff(m: nat, r: int, v: int)
    requires m > 0 && 0 <= r < m && Cong(m, r, v)
    ensures r == 0 <==> Cong(m, v, 0)
  {
    ModUnique(m, r, 0, r);
    ModUnique(m, 0, 0, 0);
  }

  lemma WhatReturned(s: Session, lanes: nat, i: nat)
    requires SessionOk(s) && 1 <= i <= s.c.nP
    ensures s.m > 0 && 0 <= SessionResidue(s, lanes) < s.m
    ensures SessionResidue(s, lanes) == 0 ==>
      Returned(s, lanes, i) == Unmasked(s.m, TableOf(s.c, s.m, s.t, lanes, 0), Final(s, lanes)[i].wires, s.t.outputs)
    ensures SessionResidue(s, lanes) != 0 ==> forall o :: 0 <= o < |s.t.outputs| ==> Returned(s, lanes, i)[o] == 0
  {
    hide LevelsOf, WellFormed, FieldModulus, SessionResidue, KeysFor, Cong, Final, TableOf, Unmasked, WeightedShifts;
    SessionResidueIs(s, lanes);
  }

  /** ... and so every party returns what was opened if and only if the key times the change
      times the sum of those factors is zero in the field, and zeros otherwise. */
  lemma SingleReleased(s: Session, lanes: nat, t: nat, e: int, i: nat) returns (start: nat)
    requires SessionOk(s) && 1 <= i <= s.c.nP
    requires var ws := Flatten(LevelsOf(s.t));
      t < |ws| && OnlyAt(s.shift, ws[t]) && s.shift(Item(0, ws[t])) == e
    ensures Below(Flatten(LevelsOf(s.t)), |s.t.gates|) && FactorsFrom(s, t, start) && s.m > 0
    ensures var g, key, rho := s.t.gates[Flatten(LevelsOf(s.t))[t]], KeysFor(s.c, 0, s.m).a.key, s.rho;
      var released := SessionResidue(s, lanes) == 0;
      && (g.Mul2? ==>
            (released <==> Cong(s.m, key * (e * (rho(start) + rho(start + 1) + rho(start + 2) + rho(start + 3))), 0)))
      && (g.Simd? ==> (released <==> Cong(s.m, key * (e * (rho(start) + rho(start + 1) + rho(start + 2))), 0)))
      && (g.Mul3? ==> (released <==> Cong(s.m, key * (e * (rho(start) + rho(start + 1))), 0)))
      && (g.Mul4? ==> (released <==> Cong(s.m, key * (e * rho(start)), 0)))
      && (!g.Mul2? && !g.Simd? && !g.Mul3? && !g.Mul4? ==> released)
    ensures SessionResidue(s, lanes) == 0 ==>
      Returned(s, lanes, i) == Unmasked(s.m, TableOf(s.c, s.m, s.t, lanes, 0), Final(s, lanes)[i].wires, s.t.outputs)
    ensures SessionResidue(s, lanes) != 0 ==> forall o :: 0 <= o < |s.t.outputs| ==> Returned(s, lanes, i)[o] == 0
  {
    hide WellFormed, FieldModulus, LevelsOf, Flatten, SessionResidue, KeysFor, Cong, FactorsFrom, Final, TableOf,
         Unmasked, Returned, OnlyAt, AllSupported;
    start := SingleChange(s, lanes, t, e);
    WhatReturned(s, lanes, i);
    var key, rho, r := KeysFor(s.c, 0, s.m).a.key, s.rho, SessionResidue(s, lanes);
    var g := s.t.gates[Flatten(LevelsOf(s.t))[t]];
    if g.Mul2? {
      ZeroIff(s.m, r, key * (e * (rho(start) + rho(start + 1) + rho(start + 2) + rho(start + 3))));
    } else if g.Simd? {
      ZeroIff(s.m, r, key * (e * (rho(start) + rho(start + 1) + rho(start + 2))));
    } else if g.Mul3? {
      ZeroIff(s.m, r, key * (e * (rho(start) + rho(start + 1))));
    } else if g.Mul4? {
      ZeroIff(s.m, r, key * (e * rho(start)));
    }
  }
}
