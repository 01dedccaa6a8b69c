/** The online phase of all parties together, and the whole protocol as a program: the offline
    passes, the levels with their comparators, the check and the outputs. */
module OnlinePhase {
  import opened Circuits
  import opened Sharing
  import opened Dealing
  import opened Offline
  import opened Masks
  import opened Preprocess
  import opened CompareMasks
  import opened Online
  import opened Masking
  import opened LevelSteps
  import opened MacCheck
  import opened OnlineRun
  import opened OnlineMac
  import opened LtzArithmetic
  import opened LtzProtocol
  import opened OnlineProgram
  import opened EndToEnd
  import OfflineProgram
  import OfflinePhase

  /** Programs 1..nP, fresh, with the given tables and views. */
  method StartAll(x: Ctx, tabs: seq<seq<Table>>, views: seq<Online.View>) returns (parties: seq<OnlineEvaluator>)
    requires CtxOk(x) && |tabs| == |views| == x.c.nP + 1
    ensures Running(x, tabs, parties, views) && forall p :: 0 <= p < |parties| ==> fresh(parties[p])
  {
    parties := [];
    for i := 1 to x.c.nP + 1
      invariant |parties| == i - 1 && forall p, q :: 0 <= p < q < |parties| ==> parties[p] != parties[q]
      invariant forall p :: 0 <= p < |parties| ==>
        fresh(parties[p]) && parties[p].x == x && parties[p].id == p + 1 && parties[p].tabs == tabs[p + 1]
        && parties[p].View() == views[p + 1]
    {
      var party := new OnlineEvaluator(x, i, tabs[i], views[i]);
      parties := parties + [party];
    }
  }

  // ---- comparators ----------------------------------------------------------------------------------

  /** All levels of a circuit without comparisons. */
  method RunLevels(x: Ctx, ghost k: Keys, tabs: seq<seq<Table>>, parties: seq<OnlineEvaluator>, lanes: nat,
                   ls: seq<seq<Wire>>, ghost views: seq<Online.View>)
    requires CtxOk(x) && Held(x, k, tabs, lanes) && LevelOrdered(x.gates, ls) && Running(x, tabs, parties, views)
    modifies parties
    ensures Running(x, tabs, parties, Run(x, k, tabs, NoBits(), lanes, ls, |ls|, views))
  {
    hide Held, LevelOrdered, CtxOk, JointOk, Step, LevelItems;
    for l := 0 to |ls|
      invariant Running(x, tabs, parties, Run(x, k, tabs, NoBits(), lanes, ls, l, views))
    {
      LevelBelow(x, ls, l);
      HeldJointOk(x, k, tabs, lanes, ls[l]);
      RunLevel(x, tabs, parties, map[], LevelItems(lanes, ls[l]), Run(x, k, tabs, NoBits(), lanes, ls, l, views));
    }
  }

  /** The comparators of the given comparisons, side by side, each party with its own tables. */
  method RunComparators(x: Ctx, ghost k: FullKeys, inner: Inner, tabs: seq<seq<Table>>, ws: seq<Wire>, noise: Noise,
                        wires: map<Item, int>) returns (parties: seq<OnlineEvaluator>)
    requires FieldOk(x, k, inner, tabs) && AllFit(x, tabs, ws) && Comparisons(x, ws)
    ensures CtxOk(BoolCtx(x, inner, noise))
    ensures Running(BoolCtx(x, inner, noise), InnerTables(x, tabs, ws), parties,
                    BoolRun(x, k, inner, tabs, ws, noise, wires))
  {
    hide Held, LevelOrdered, WellFormed, LaneOk, KeysOk, GoodCompare, EntriesFit, Run, BoolWires, InnerLanes,
         Topological;
    BoolHeld(x, k, inner, tabs, ws, noise);
    var xb, t := BoolCtx(x, inner, noise), InnerTables(x, tabs, ws);
    var start := BoolStart(x, inner, tabs, ws, wires);
    parties := StartAll(xb, t, start);
    RunLevels(xb, k.b, t, parties, |ws|, inner.ls, start);
  }

  /** The masked bits of the given comparisons. */
  method ComparisonBits(x: Ctx, ghost k: FullKeys, inner: Inner, tabs: seq<seq<Table>>, ws: seq<Wire>, noise: Noise,
                        wires: map<Item, int>) returns (bits: map<Item, int>)
    requires FieldOk(x, k, inner, tabs) && AllFit(x, tabs, ws) && Comparisons(x, ws)
    ensures bits == LtzBits(x, k, inner, tabs, ws, noise, wires)
  {
    hide FieldOk, LaneOk, EntriesFit, BoolRun, LtzBitOf, InnerTables;
    var parties := RunComparators(x, k, inner, tabs, ws, noise, wires);
    FirstParty(x, k, inner, tabs, ws, noise, wires);
    var v := parties[0].View();
    bits := map it: Item | it in Row(0, ws) :: LtzBitOf(x, inner, tabs[1][0], ws, v, wires, it.w);
  }

  lemma FirstParty(x: Ctx, k: FullKeys, inner: Inner, tabs: seq<seq<Table>>, ws: seq<Wire>, noise: Noise,
                   wires: map<Item, int>)
    requires FieldOk(x, k, inner, tabs) && AllFit(x, tabs, ws) && Comparisons(x, ws)
    ensures x.c.nP > 0 && x.m > 0 && |BoolRun(x, k, inner, tabs, ws, noise, wires)| == x.c.nP + 1
    ensures EntriesFit(x.gates, tabs[1][0], ws) && BoolCtx(x, inner, noise).c == x.c
  {
    hide LaneOk, EntriesFit, BoolRun, LevelOrdered, KeysOk, GoodCompare, InnerOk;
  }

  // ---- the levels of the circuit ---------------------------------------------------------------------

  /** One level: first the comparators of its comparisons, then its openings.  The bits are
      those of party 1; every party has the same (`EndToEnd.BitsAgree`). */
  method FieldLevel(x: Ctx, ghost k: FullKeys, inner: Inner, tabs: seq<seq<Table>>, ls: seq<seq<Wire>>, l: nat,
                    noise: nat -> Noise, parties: seq<OnlineEvaluator>, ghost views: seq<Online.View>)
    requires FieldOk(x, k, inner, tabs) && LevelOrdered(x.gates, ls) && l < |ls| && Held(x, k.a, tabs, 1)
    requires Running(x, tabs, parties, views)
    modifies parties
    ensures JointOk(x, tabs, LevelItems(1, ls[l]))
    ensures |views| > 1 && Running(x, tabs, parties,
      Step(x, tabs, FieldBits(x, k, inner, tabs, ls, noise)(l, views[1]), LevelItems(1, ls[l]), views))
  {
    LevelBelow(x, ls, l);
    HeldJointOk(x, k.a, tabs, 1, ls[l]);
    LevelFits(x, k, inner, tabs, ls, l);
    hide FieldOk, LevelOrdered, Held, JointOk, Step, LevelItems, AllFit, LtzBits, LtzWires;
    var ws := LtzWires(x.gates, ls[l]);
    var wires := parties[0].wires;
    assert parties[0].View() == views[1];
    var bits := ComparisonBits(x, k, inner, tabs, ws, noise(l), wires);
    assert bits == FieldBits(x, k, inner, tabs, ls, noise)(l, views[1]);
    RunLevel(x, tabs, parties, bits, LevelItems(1, ls[l]), views);
  }

  lemma LevelFits(x: Ctx, k: FullKeys, inner: Inner, tabs: seq<seq<Table>>, ls: seq<seq<Wire>>, l: nat)
    requires FieldOk(x, k, inner, tabs) && LevelOrdered(x.gates, ls) && l < |ls|
    ensures x.c.nP > 0 && Below(ls[l], |x.gates|)
    ensures AllFit(x, tabs, LtzWires(x.gates, ls[l])) && Comparisons(x, LtzWires(x.gates, ls[l]))
  {
    hide LaneOk, KeysOk, GoodCompare, InnerOk, LtzWires, AllFit;
    LevelBelow(x, ls, l);
    FieldEntries(x, k, inner, tabs, LtzWires(x.gates, ls[l]));
  }

  /** All levels. */
  method FieldRun(x: Ctx, ghost k: FullKeys, inner: Inner, tabs: seq<seq<Table>>, ls: seq<seq<Wire>>,
                  noise: nat -> Noise, parties: seq<OnlineEvaluator>, ghost views: seq<Online.View>)
    requires FieldOk(x, k, inner, tabs) && LevelOrdered(x.gates, ls) && Held(x, k.a, tabs, 1)
    requires Running(x, tabs, parties, views)
    modifies parties
    ensures Running(x, tabs, parties,
                    Run(x, k.a, tabs, FieldBits(x, k, inner, tabs, ls, noise), 1, ls, |ls|, views))
  {
    hide LaneOk, KeysOk, GoodCompare, InnerOk, LevelOrdered, Held, JointOk, Step, LevelItems, FieldBits;
    ghost var bits := FieldBits(x, k, inner, tabs, ls, noise);
    for l := 0 to |ls|
      invariant Running(x, tabs, parties, Run(x, k.a, tabs, bits, 1, ls, l, views))
    {
      FieldLevel(x, k, inner, tabs, ls, l, noise, parties, Run(x, k.a, tabs, bits, 1, ls, l, views));
    }
  }

  // ---- the protocol ------------------------------------------------------------------------------------

  /** The dealer's and the parties' tables, one after the other. */
  method Prepare(s: Session, lanes: nat) returns (tabs: seq<seq<Table>>)
    requires SessionOk(s)
    ensures tabs == Tables(s.c, s.m, s.t, lanes)
  {
    OfflineReady(s, lanes);
    hide LtzInner, OfflinePhase.Ready, OfflinePhase.TableFor, LevelsOf, TaskOk, TableOf, Tables;
    tabs := OfflinePhase.AllTables(s.c, s.m, LtzInner(lanes), Owned(s.t.owners), s.t.gates, LevelsOf(s.t));
    TablesSame(s, lanes, tabs);
  }

  lemma TablesSame(s: Session, lanes: nat, tabs: seq<seq<Table>>)
    requires SessionOk(s) && |tabs| == s.c.nP + 1
    requires OfflinePhase.Ready(s.c, s.m, LtzInner(lanes), Owned(s.t.owners), s.t.gates, LevelsOf(s.t))
    requires forall id :: 0 <= id <= s.c.nP ==>
      tabs[id] == [OfflinePhase.TableFor(s.c, id, s.m, LtzInner(lanes), Owned(s.t.owners), s.t.gates, LevelsOf(s.t))]
    ensures tabs == Tables(s.c, s.m, s.t, lanes)
  {
    hide LtzInner, OfflinePhase.Ready, OfflinePhase.TableFor, LevelsOf, TaskOk, TableOf;
    var goal := Tables(s.c, s.m, s.t, lanes);
    forall id | 0 <= id <= s.c.nP ensures tabs[id] == goal[id] {
      TableSame(s, lanes, id);
    }
  }

  lemma OfflineReady(s: Session, lanes: nat)
    requires SessionOk(s)
    ensures OfflinePhase.Ready(s.c, s.m, LtzInner(lanes), Owned(s.t.owners), s.t.gates, LevelsOf(s.t))
  {
    hide LtzInner, RunOk, InnerOk, AllSupported, FieldModulus, WellFormed, LevelsOf, LevelOrdered, Flatten;
    FieldAboveTwo(s.c, s.m, s.t);
    InnerFits(lanes);
    forall id | 0 <= id <= s.c.nP ensures RunOk(s.c, id, s.t.gates, Owned(s.t.owners), Flatten(LevelsOf(s.t))) {
      TaskRunOk(s.c, s.m, id, s.t);
    }
  }

  lemma TableSame(s: Session, lanes: nat, id: nat)
    requires SessionOk(s) && id <= s.c.nP
    requires OfflinePhase.Ready(s.c, s.m, LtzInner(lanes), Owned(s.t.owners), s.t.gates, LevelsOf(s.t))
    ensures OfflinePhase.TableFor(s.c, id, s.m, LtzInner(lanes), Owned(s.t.owners), s.t.gates, LevelsOf(s.t))
         == TableOf(s.c, s.m, s.t, lanes, id)
  {
    hide LtzInner, RunOk, InnerOk, AllSupported, FieldModulus, WellFormed, LevelsOf, LevelOrdered, Flatten,
         Preprocessing;
  }

  /** What is announced of the masks of the output wires. */
  method OutputMasks(m: nat, table: Table, outputs: seq<Wire>) returns (masks: seq<int>)
    requires m > 0
    ensures |masks| == |outputs| && forall o :: 0 <= o < |outputs| ==> masks[o] == OutputMask(m, table, outputs[o])
  {
    hide OutputMask;
    masks := [];
    for o := 0 to |outputs|
      invariant |masks| == o && forall q :: 0 <= q < o ==> masks[q] == OutputMask(m, table, outputs[q])
    {
      masks := masks + [OutputMask(m, table, outputs[o])];
    }
  }

  /** The levels and the check: the parties' final views and the dealer's sum. */
  method RunAndCheck(s: Session, lanes: nat, tabs: seq<seq<Table>>)
    returns (parties: seq<OnlineEvaluator>, res: int)
    requires SessionOk(s) && tabs == Tables(s.c, s.m, s.t, lanes)
    ensures CtxOk(FieldCtx(s.c, s.m, s.t, s.shift))
    ensures Running(FieldCtx(s.c, s.m, s.t, s.shift), tabs, parties, Final(s, lanes))
    ensures res == SessionResidue(s, lanes)
  {
    SessionParts(s, lanes);
    hide SessionOk, LtzInner, LevelsOf, Tables, Residue, Run, FieldOk, LevelOrdered, Held, StartViews, KeyShares,
         FieldBits, MacOrder, ItemsOk;
    var x, ls, inner := FieldCtx(s.c, s.m, s.t, s.shift), LevelsOf(s.t), LtzInner(lanes);
    ghost var k := KeysFor(s.c, 0, s.m);
    var views := StartViews(s.c, s.m, s.t, tabs, FirstLevel(ls), s.inputs);
    parties := StartAll(x, tabs, views);
    FieldRun(x, k, inner, tabs, ls, s.noise, parties, views);
    res := MacVerification(x, tabs, parties, MacOrder(ls), s.rho, KeyShares(s.c, tabs), Final(s, lanes));
  }

  /** What a session's final views and residue are made of. */
  lemma SessionParts(s: Session, lanes: nat)
    requires SessionOk(s)
    ensures var x, k, inner, tabs, ls := FieldCtx(s.c, s.m, s.t, s.shift), KeysFor(s.c, 0, s.m), LtzInner(lanes),
                                         Tables(s.c, s.m, s.t, lanes), LevelsOf(s.t);
      && s.m > 0 && CtxOk(x) && FieldOk(x, k, inner, tabs) && LevelOrdered(x.gates, ls) && Held(x, k.a, tabs, 1)
      && |tabs| == s.c.nP + 1 && (forall j :: 0 <= j <= s.c.nP ==> |tabs[j]| == 1)
      && ItemsOk(x.gates, MacOrder(ls))
      && Final(s, lanes) == Run(x, k.a, tabs, FieldBits(x, k, inner, tabs, ls, s.noise), 1, ls, |ls|,
                                StartViews(s.c, s.m, s.t, tabs, FirstLevel(ls), s.inputs))
      && SessionResidue(s, lanes) == Residue(x, MacOrder(ls), s.rho, KeyShares(s.c, tabs), Final(s, lanes))
  {
    hide LtzInner, LevelsOf, Residue, Run, LevelOrdered, Held, StartViews, KeyShares, FieldBits, MacOrder, ItemsOk,
         TableOf, AllSupported, FieldModulus, WellFormed;
    SessionReady(s, lanes);
    var x, k, inner, tabs, ls := FieldCtx(s.c, s.m, s.t, s.shift), KeysFor(s.c, 0, s.m), LtzInner(lanes),
                                 Tables(s.c, s.m, s.t, lanes), LevelsOf(s.t);
    ReadyHeld(s, x, k, inner, tabs, ls);
    MacOrderOk(x, ls);
  }

  /** What one party returns. */
  method PartyOutput(s: Session, lanes: nat, party: OnlineEvaluator, res: int, masks: seq<int>) returns (out: seq<int>)
    requires SessionOk(s) && party.Valid() && party.x == FieldCtx(s.c, s.m, s.t, s.shift)
    requires res == SessionResidue(s, lanes) && party.View() == Final(s, lanes)[party.id] && |masks| == |s.t.outputs|
    requires s.m > 0 && forall o :: 0 <= o < |masks| ==>
      masks[o] == OutputMask(s.m, TableOf(s.c, s.m, s.t, lanes, 0), s.t.outputs[o])
    ensures 1 <= party.id <= s.c.nP && out == Returned(s, lanes, party.id)
  {
    hide SessionOk, OutputMask, TableOf, SessionResidue, Final;
    if res == 0 {
      out := party.GetOutputs(s.t.outputs, masks);
    } else {
      out := seq(|s.t.outputs|, _ => 0);
    }
  }

  method AllOutputs(s: Session, lanes: nat, tabs: seq<seq<Table>>, parties: seq<OnlineEvaluator>, res: int,
                    masks: seq<int>) returns (outs: seq<seq<int>>)
    requires SessionOk(s) && CtxOk(FieldCtx(s.c, s.m, s.t, s.shift))
    requires Running(FieldCtx(s.c, s.m, s.t, s.shift), tabs, parties, Final(s, lanes))
    requires res == SessionResidue(s, lanes) && |masks| == |s.t.outputs|
    requires s.m > 0 && forall o :: 0 <= o < |masks| ==>
      masks[o] == OutputMask(s.m, TableOf(s.c, s.m, s.t, lanes, 0), s.t.outputs[o])
    ensures |outs| == s.c.nP && forall p :: 0 <= p < s.c.nP ==> outs[p] == Returned(s, lanes, p + 1)
  {
    hide SessionOk, Returned, SessionResidue, Final, TableOf, OutputMask;
    outs := [];
    for p := 0 to s.c.nP
      invariant |outs| == p && forall q :: 0 <= q < p ==> outs[q] == Returned(s, lanes, q + 1)
    {
      var out := PartyOutput(s, lanes, parties[p], res, masks);
      outs := outs + [out];
    }
  }

  /** The whole protocol.  Whatever is added to openings, every party returns what the theorems
      speak of; and if nothing is, the outputs of plain evaluation. */
  method EvaluateCircuit(s: Session, lanes: nat) returns (outs: seq<seq<int>>)
    requires SessionOk(s)
    ensures |outs| == s.c.nP && forall p :: 0 <= p < s.c.nP ==> outs[p] == Returned(s, lanes, p + 1)
    ensures Below(s.t.outputs, |PlainOf(s)|)
    ensures lanes == 2 && Honest(s) ==> forall p :: 0 <= p < s.c.nP ==> outs[p] == PlainOutputs(PlainOf(s), s.t.outputs)
  {
    SessionSize(s, lanes);
    hide SessionOk, Honest, Returned, SessionResidue, Final, TableOf, OutputMask, Tables, PlainOf, PlainOutputs,
         Running, CtxOk, Below;
    var tabs := Prepare(s, lanes);
    var parties, res := RunAndCheck(s, lanes, tabs);
    var masks := OutputMasks(s.m, tabs[0][0], s.t.outputs);
    outs := AllOutputs(s, lanes, tabs, parties, res, masks);
    HonestOutputs(s, lanes, outs);
  }

  lemma HonestOutputs(s: Session, lanes: nat, outs: seq<seq<int>>)
    requires SessionOk(s) && Below(s.t.outputs, |PlainOf(s)|)
    requires |outs| == s.c.nP && forall p :: 0 <= p < s.c.nP ==> outs[p] == Returned(s, lanes, p + 1)
    ensures lanes == 2 && Honest(s) ==> forall p :: 0 <= p < s.c.nP ==> outs[p] == PlainOutputs(PlainOf(s), s.t.outputs)
  {
    hide SessionOk, Honest, Returned, PlainOf, PlainOutputs;
    if lanes == 2 && Honest(s) {
      forall p | 0 <= p < s.c.nP ensures outs[p] == PlainOutputs(PlainOf(s), s.t.outputs) {
        ProtocolCorrect(s, lanes, p + 1);
      }
    }
  }

  lemma SessionSize(s: Session, lanes: nat)
    requires SessionOk(s)
    ensures s.m > 0 && Below(s.t.outputs, |PlainOf(s)|)
    ensures var tabs := Tables(s.c, s.m, s.t, lanes); |tabs| > 0 && tabs[0] == [TableOf(s.c, s.m, s.t, lanes, 0)]
  {
    hide TableOf;
  }
}
