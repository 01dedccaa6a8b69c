/** The central invariant of the online phase: after every level each public wire is the
    plain value plus the wire's mask, at every party. */
module Masking {
  import opened Circuits
  import opened Sharing
  import opened Dealing
  import opened Offline
  import opened Masks
  import opened Opening
  import opened Aggregation
  import opened Online
  import opened ZMod

  // ---- opening an expression --------------------------------------------------------------

  /** The dealer's own, empty, part of a sharing. */
  function DealerPartOf(s: Share): Auth {
    if TPOk(s.tp, |s.tp.values|) then PartOf(s.tp, 0) else Auth(0, 0, 0)
  }

  /** The dealer's parts and the parties' own shares, one row per id. */
  function Rows(c: Config, d: seq<Share>, p: seq<seq<Share>>): (rows: seq<seq<Auth>>)
    requires |p| == c.nP + 1
    ensures |rows| == c.nP + 1
    ensures forall i :: 1 <= i <= c.nP ==> rows[i] == Auths(p[i])
    ensures |rows[0]| == |d| && forall j :: 0 <= j < |d| ==> rows[0][j] == DealerPartOf(d[j])
  {
    seq(c.nP + 1, i requires 0 <= i <= c.nP =>
      if i == 0 then seq(|d|, j requires 0 <= j < |d| => DealerPartOf(d[j])) else Auths(p[i]))
  }

  lemma RowsShare(c: Config, m: nat, k: Keys, d: seq<Share>, p: seq<seq<Share>>, ss: seq<int>)
    requires m > 0 && |k.sh| == |p| == c.nP + 1 && c.nP > 0 && AllDealt(m, k, d, ss)
    requires forall i :: 1 <= i <= c.nP ==> SameShares(c, i, d, p[i])
    ensures forall i :: 0 <= i <= c.nP ==> |Rows(c, d, p)[i]| == |ss|
    ensures forall j :: 0 <= j < |ss| ==> Shares(m, Column(Rows(c, d, p), j), k.sh, k.key, ss[j])
  {
    hide Shares, Cong;
    var rows := Rows(c, d, p);
    forall j | 0 <= j < |ss| ensures Shares(m, Column(rows, j), k.sh, k.key, ss[j]) {
      assert Dealt(m, k, d[j].tp, ss[j]);
      forall i | 0 <= i <= c.nP ensures rows[i][j] == PartOf(d[j].tp, i) {
        if i > 0 {
          assert SameShare(c, i, d[j], p[i][j]);
        }
      }
      assert Column(rows, j) == Parts(d[j].tp);
    }
  }

  function Tail(s: seq<int>): seq<int>
    requires |s| > 0
  {
    s[1..]
  }

  lemma SumTail(s: seq<int>)
    requires |s| > 0 && s[0] == 0
    ensures Sum(Tail(s)) == Sum(s)
  {
    assert s == [s[0]] + Tail(s);
    SumConcat([s[0]], Tail(s));
    SumAppend([], s[0]);
    assert [] + [s[0]] == [s[0]];
  }

  /** Everyone evaluating the same expression on good sharings. */
  lemma JointShares(c: Config, m: nat, k: Keys, e: Expr, d: seq<Share>, p: seq<seq<Share>>, ss: seq<int>)
    requires m > 0 && |k.sh| == |p| == c.nP + 1 && c.nP > 0 && KeysOk(m, k.sh, k.key)
    requires AllDealt(m, k, d, ss) && InRange(e, |ss|)
    requires forall i :: 1 <= i <= c.nP ==> SameShares(c, i, d, p[i])
    ensures forall i :: 0 <= i <= c.nP ==> |Rows(c, d, p)[i]| == |ss|
    ensures Shares(m, EvalJoint(m, e, Rows(c, d, p)), k.sh, k.key, Secret(e, ss))
  {
    hide Shares, Cong, AllDealt, Secret, InRange, SameShares, Eval;
    RowsShare(c, m, k, d, p, ss);
    Homomorphism(m, e, Rows(c, d, p), k.sh, k.key, ss);
  }

  /** The opened values add up to the secret ... */
  lemma JointOpen(c: Config, m: nat, k: Keys, e: Expr, d: seq<Share>, p: seq<seq<Share>>, ss: seq<int>, vals: seq<int>)
    requires m > 0 && |k.sh| == |p| == c.nP + 1 && c.nP > 0 && KeysOk(m, k.sh, k.key)
    requires AllDealt(m, k, d, ss) && InRange(e, |ss|)
    requires forall i :: 1 <= i <= c.nP ==> SameShares(c, i, d, p[i])
    requires |vals| == c.nP
    requires forall i :: 1 <= i <= c.nP ==> InRange(e, |p[i]|) && vals[i - 1] == Eval(m, e, Auths(p[i]), i).value
    ensures Cong(m, Sum(vals), Secret(e, ss))
  {
    hide Cong, AllDealt, Secret, InRange, SameShares, Eval, KeysOk;
    JointShares(c, m, k, e, d, p, ss);
    var js := EvalJoint(m, e, Rows(c, d, p));
    SumTail(Values(js));
    assert vals == Tail(Values(js));
  }

  /** ... and the parties' tags to the key times it. */
  lemma JointTags(c: Config, m: nat, k: Keys, e: Expr, d: seq<Share>, p: seq<seq<Share>>, ss: seq<int>, tags: seq<int>)
    requires m > 0 && |k.sh| == |p| == c.nP + 1 && c.nP > 0 && KeysOk(m, k.sh, k.key)
    requires AllDealt(m, k, d, ss) && InRange(e, |ss|)
    requires forall i :: 1 <= i <= c.nP ==> SameShares(c, i, d, p[i])
    requires |tags| == c.nP
    requires forall i :: 1 <= i <= c.nP ==> InRange(e, |p[i]|) && tags[i - 1] == Eval(m, e, Auths(p[i]), i).tag
    ensures Cong(m, Sum(tags), k.key * Secret(e, ss))
  {
    hide Cong, AllDealt, Secret, InRange, SameShares, Eval, KeysOk;
    JointShares(c, m, k, e, d, p, ss);
    var js := EvalJoint(m, e, Rows(c, d, p));
    SumTail(Tags(js));
    assert tags == Tail(Tags(js));
  }

  // ---- good tables and plain values ------------------------------------------------------------

  /** `vs` are the plain values of a lane: every gate but inputs and comparisons computes
      its value from its inputs. */
  ghost predicate Computes(m: nat, gates: seq<Gate>, vs: seq<int>)
    requires m > 1 && WellFormed(gates)
  {
    && |vs| == |gates| && Reduced(m, vs)
    && forall w :: 0 <= w < |gates| && Basic(gates[w]) && !gates[w].Inp? ==>
         GateOk(gates[w], |vs|) && vs[w] == GateVal(m, gates[w], vs, 0)
  }

  /** The tables of one lane: the dealer's is good and the parties' are in step with it. */
  ghost predicate LaneOk(x: Ctx, k: Keys, tabs: seq<seq<Table>>, lane: nat)
    requires CtxOk(x) && |tabs| == x.c.nP + 1
  {
    && (forall i :: 0 <= i <= x.c.nP ==> lane < |tabs[i]|)
    && GoodEntries(x.m, k, x.gates, tabs[0][lane])
    && (forall w: Wire :: w < |x.gates| ==> w in tabs[0][lane])
    && (forall i :: 1 <= i <= x.c.nP ==> SameTables(x.c, i, tabs[0][lane], tabs[i][lane]))
  }

  /** A masked wire. */
  ghost predicate Hides(m: nat, T: Table, vs: seq<int>, w: Wire, public: int)
    requires m > 0
  {
    && w in T && w < |vs| && 0 <= public < m
    && Cong(m, public, vs[w] + Delta(m, T, w))
  }

  /** A comparison's entry fits the masked bit that was computed for it, where e is added to
      the gate's opening. */
  ghost predicate BitOk(m: nat, k: Keys, T: Table, vs: seq<int>, w: Wire, bit: int, e: int)
    requires m > 0
  {
    && w in T && w < |vs| && T[w].Compare?
    && var dw, db := TPSecret(m, T[w].maskW.tp), TPSecret(m, T[w].maskB.tp);
       && Dealt(m, k, T[w].maskW.tp, dw) && Dealt(m, k, T[w].maskB.tp, db)
       && Cong(m, Delta(m, T, w), -2 * dw - db)
       && Cong(m, vs[w], bit + db - 2 * bit * db - 2 * e)
  }

  // ---- one gate -------------------------------------------------------------------------------------

  /** The secrets behind a gate's leaf shares. */
  function LeafSecrets(m: nat, T: Table, g: Gate, w: Wire): seq<int>
    requires m > 0 && w in T && Known(T, Ins(g)) && (g.Simd? ==> |g.ins1| == |g.ins2|)
    requires !Basic(g) ==> T[w].Compare?
  {
    if Basic(g) then [Delta(m, T, w)] + Products(m, g, DeltasOf(m, T, Ins(g))) + DeltasOf(m, T, Ins(g))
    else [TPSecret(m, T[w].maskW.tp), TPSecret(m, T[w].maskB.tp)]
  }

  /** The secret the parties open for a gate. */
  function OpenSecret(m: nat, T: Table, g: Gate, vs: seq<int>, w: Wire, bit: int): int
    requires m > 0 && w in T && w < |vs| && (!Basic(g) ==> T[w].Compare?)
  {
    if Basic(g) then Delta(m, T, w) + vs[w]
    else TPSecret(m, T[w].maskW.tp) + TPSecret(m, T[w].maskB.tp) * bit
  }

  /** The parties hold what they need to open a gate. */
  ghost predicate ItemHeld(x: Ctx, k: Keys, tabs: seq<seq<Table>>, it: Item)
    requires CtxOk(x)
  {
    && |tabs| == x.c.nP + 1 && LaneOk(x, k, tabs, it.lane)
    && it.w < |x.gates| && Interactive(x.gates[it.w])
    && (!Basic(x.gates[it.w]) ==> x.gates[it.w].Unary? && CompareHeld(x.m, k, tabs[0][it.lane], it.w))
  }

  /** Everything known about a gate that is about to be opened. */
  ghost predicate ItemReady(x: Ctx, k: Keys, tabs: seq<seq<Table>>, vs: seq<int>, wires: map<Item, int>,
                            bits: map<Item, int>, it: Item)
    requires CtxOk(x)
  {
    && ItemHeld(x, k, tabs, it) && Computes(x.m, x.gates, vs)
    && (forall i :: 0 <= i < |Ins(x.gates[it.w])| ==>
          Hides(x.m, tabs[0][it.lane], vs, Ins(x.gates[it.w])[i], Get(wires, InputItems(x.gates[it.w], it.lane)[i])))
    && (!Basic(x.gates[it.w]) ==> BitOk(x.m, k, tabs[0][it.lane], vs, it.w, Get(bits, it), x.shift(it)))
  }

  lemma ProductsCount(m: nat, g: Gate, d: seq<int>)
    requires m > 0 && |d| == |Ins(g)| && (g.Simd? ==> |g.ins1| == |g.ins2|)
    ensures |Products(m, g, d)| == ProductCount(g)
  {
  }

  /** Table entries a gate's share is computed from. */
  lemma EntryOk(x: Ctx, k: Keys, tabs: seq<seq<Table>>, it: Item, i: nat)
    requires CtxOk(x) && ItemHeld(x, k, tabs, it) && 1 <= i <= x.c.nP
    ensures var T, g := tabs[0][it.lane], x.gates[it.w];
      && it.w in T && Known(T, Ins(g)) && (g.Simd? ==> |g.ins1| == |g.ins2|)
      && (Basic(g) ==> T[it.w].Product?) && (!Basic(g) ==> T[it.w].Compare?)
    ensures CanSend(x, tabs[i], it)
  {
    hide Delta, DeltasOf, Dealt, Hides, Cong, GateVal, TPSecret;
    var T, g := tabs[0][it.lane], x.gates[it.w];
    assert GoodPre(x.m, k, g, T, it.w);
    assert SameTables(x.c, i, T, tabs[i][it.lane]);
    assert SameBasic(x.c, i, T[it.w], tabs[i][it.lane][it.w]);
    if Basic(g) {
      ProductsCount(x.m, g, DeltasOf(x.m, T, Ins(g)));
    } else {
      assert SameCompare(x.c, i, T[it.w], tabs[i][it.lane][it.w]);
    }
  }

  lemma AllDealtConcat(m: nat, k: Keys, s: seq<Share>, ss: seq<int>, t: seq<Share>, tt: seq<int>)
    requires m > 0 && AllDealt(m, k, s, ss) && AllDealt(m, k, t, tt)
    ensures AllDealt(m, k, s + t, ss + tt)
  {
    hide Dealt;
  }

  lemma SameSharesConcat(c: Config, i: nat, s: seq<Share>, ss: seq<Share>, t: seq<Share>, tt: seq<Share>)
    requires SameShares(c, i, s, ss) && SameShares(c, i, t, tt)
    ensures SameShares(c, i, s + t, ss + tt)
  {
    hide SameShare;
  }

  lemma InputMasksDealt(m: nat, k: Keys, gates: seq<Gate>, T: Table, ws: seq<Wire>)
    requires m > 0 && GoodEntries(m, k, gates, T) && Known(T, ws)
    ensures AllDealt(m, k, InputMasks(T, ws), DeltasOf(m, T, ws))
  {
    hide Dealt, Delta;
    forall i | 0 <= i < |ws| ensures Dealt(m, k, T[ws[i]].mask.tp, Delta(m, T, ws[i])) {
      assert GoodPre(m, k, gates[ws[i]], T, ws[i]);
    }
  }

  lemma InputMasksSame(c: Config, i: nat, d: Table, p: Table, ws: seq<Wire>)
    requires SameTable(c, i, d, p) && Known(d, ws)
    ensures Known(p, ws) && SameShares(c, i, InputMasks(d, ws), InputMasks(p, ws))
  {
    hide SameShare;
    forall j | 0 <= j < |ws| ensures ws[j] in p && SameShare(c, i, d[ws[j]].mask, p[ws[j]].mask) {
      assert SameBasic(c, i, d[ws[j]], p[ws[j]]);
    }
  }

  lemma EntryDealt(m: nat, k: Keys, gates: seq<Gate>, T: Table, g: Gate, w: Wire)
    requires m > 0 && GoodEntries(m, k, gates, T) && w in T && Known(T, Ins(g)) && (g.Simd? ==> |g.ins1| == |g.ins2|)
    requires Basic(g) ==>
      && T[w].Product? && Dealt(m, k, T[w].mask.tp, Delta(m, T, w))
      && AllDealt(m, k, T[w].prods, Products(m, g, DeltasOf(m, T, Ins(g))))
    requires !Basic(g) ==>
      && T[w].Compare? && Dealt(m, k, T[w].maskW.tp, TPSecret(m, T[w].maskW.tp))
      && Dealt(m, k, T[w].maskB.tp, TPSecret(m, T[w].maskB.tp))
    ensures AllDealt(m, k, LeafShares(T, g, w), LeafSecrets(m, T, g, w))
  {
    hide TPSecret, Dealt, Products, GoodEntries, Ins, GoodPre;
    if Basic(g) {
      var ins := Ins(g);
      var d := DeltasOf(m, T, ins);
      InputMasksDealt(m, k, gates, T, ins);
      assert AllDealt(m, k, [T[w].mask], [Delta(m, T, w)]);
      AllDealtConcat(m, k, [T[w].mask], [Delta(m, T, w)], T[w].prods, Products(m, g, d));
      AllDealtConcat(m, k, [T[w].mask] + T[w].prods, [Delta(m, T, w)] + Products(m, g, d), InputMasks(T, ins), d);
    }
  }

  lemma EntrySame(c: Config, i: nat, T: Table, P: Table, g: Gate, w: Wire)
    requires SameTables(c, i, T, P) && w in T && Known(T, Ins(g)) && Interactive(g)
    requires if Basic(g) then T[w].Product? else T[w].Compare?
    ensures w in P && Known(P, Ins(g)) && (if Basic(g) then P[w].Product? else P[w].Compare?)
    ensures SameShares(c, i, LeafShares(T, g, w), LeafShares(P, g, w))
  {
    hide SameShare, Ins;
    assert SameBasic(c, i, T[w], P[w]) && SameCompare(c, i, T[w], P[w]);
    InputMasksSame(c, i, T, P, Ins(g));
    if Basic(g) {
      SameSharesConcat(c, i, [T[w].mask], [P[w].mask], T[w].prods, P[w].prods);
      SameSharesConcat(c, i, [T[w].mask] + T[w].prods, [P[w].mask] + P[w].prods,
                       InputMasks(T, Ins(g)), InputMasks(P, Ins(g)));
    }
  }

  lemma LeavesDealt(x: Ctx, k: Keys, tabs: seq<seq<Table>>, it: Item)
    requires CtxOk(x) && ItemHeld(x, k, tabs, it)
    ensures var T, g := tabs[0][it.lane], x.gates[it.w];
      && it.w in T && Known(T, Ins(g)) && (g.Simd? ==> |g.ins1| == |g.ins2|)
      && (Basic(g) ==> T[it.w].Product?) && (!Basic(g) ==> T[it.w].Compare?)
      && AllDealt(x.m, k, LeafShares(T, g, it.w), LeafSecrets(x.m, T, g, it.w))
  {
    EntryOk(x, k, tabs, it, 1);
    hide Cong, GateVal, TPSecret, Dealt, Products, Hides, SameTables, Computes, DeltasOf, Delta, AllDealt,
         LeafShares, LeafSecrets, WellFormed, Ins;
    assert GoodPre(x.m, k, x.gates[it.w], tabs[0][it.lane], it.w);
    EntryDealt(x.m, k, x.gates, tabs[0][it.lane], x.gates[it.w], it.w);
  }

  lemma LeavesSame(x: Ctx, k: Keys, tabs: seq<seq<Table>>, it: Item, i: nat)
    requires CtxOk(x) && ItemHeld(x, k, tabs, it) && 1 <= i <= x.c.nP
    ensures var T, g := tabs[0][it.lane], x.gates[it.w];
      && it.w in T && Known(T, Ins(g))
      && (Basic(g) ==> T[it.w].Product?) && (!Basic(g) ==> T[it.w].Compare?)
      && CanSend(x, tabs[i], it)
      && SameShares(x.c, i, LeafShares(T, g, it.w), LeafShares(tabs[i][it.lane], g, it.w))
  {
    EntryOk(x, k, tabs, it, i);
    hide Cong, TPSecret, Dealt, Hides, GoodEntries, CompareHeld, Computes, SameShares, SameTables, LeafShares,
         WellFormed, Ins;
    EntrySame(x.c, i, tabs[0][it.lane], tabs[i][it.lane], x.gates[it.w], it.w);
  }

  lemma InputsMasked(x: Ctx, k: Keys, tabs: seq<seq<Table>>, vs: seq<int>, wires: map<Item, int>, bits: map<Item, int>,
                     it: Item)
    requires CtxOk(x) && ItemReady(x, k, tabs, vs, wires, bits, it)
    ensures var T, g := tabs[0][it.lane], x.gates[it.w];
      && Known(T, Ins(g))
      && Masked(x.m, g, PublicInputs(g, it.lane, wires), DeltasOf(x.m, T, Ins(g)), vs)
  {
    hide Cong, GoodEntries, SameTables, Computes, Delta, Ins, Dealt;
    var T, g := tabs[0][it.lane], x.gates[it.w];
    forall i | 0 <= i < |Ins(g)|
      ensures Ins(g)[i] in T && Ins(g)[i] < |vs|
      ensures Cong(x.m, PublicInputs(g, it.lane, wires)[i], vs[Ins(g)[i]] + Delta(x.m, T, Ins(g)[i]))
    {
      assert Hides(x.m, T, vs, Ins(g)[i], Get(wires, InputItems(g, it.lane)[i]));
    }
  }

  lemma BasicSecret(m: nat, T: Table, g: Gate, w: Wire, v: seq<int>, vs: seq<int>, bit: int)
    requires m > 1 && Basic(g) && Interactive(g) && w in T && w < |vs| && Known(T, Ins(g))
    requires g.Simd? ==> |g.ins1| == |g.ins2|
    requires GateOk(g, |vs|) && Reduced(m, vs) && vs[w] == GateVal(m, g, vs, 0)
    requires Masked(m, g, v, DeltasOf(m, T, Ins(g)), vs)
    ensures var e, ss := ItemExpr(m, g, v, bit), LeafSecrets(m, T, g, w);
      InRange(e, |ss|) && Cong(m, Secret(e, ss), OpenSecret(m, T, g, vs, w, bit))
  {
    hide Delta, DeltasOf, Cong, InRange, Secret, GateVal, GateOk, Products, QExpr, Reduced, Masked, Ins, Basic,
         Interactive;
    OpenGate(m, g, Delta(m, T, w), v, DeltasOf(m, T, Ins(g)), vs, 0, LeafSecrets(m, T, g, w), vs[w]);
  }

  lemma CompareSecret(m: nat, T: Table, g: Gate, w: Wire, v: seq<int>, vs: seq<int>, bit: int)
    requires m > 1 && !Basic(g) && g.Unary? && |v| == |Ins(g)| && w in T && T[w].Compare? && w < |vs|
      && Known(T, Ins(g))
    ensures var e, ss := ItemExpr(m, g, v, bit), LeafSecrets(m, T, g, w);
      InRange(e, |ss|) && Cong(m, Secret(e, ss), OpenSecret(m, T, g, vs, w, bit))
  {
    var dw, db := TPSecret(m, T[w].maskW.tp), TPSecret(m, T[w].maskB.tp);
    assert Secret(Times(Leaf(1), bit), [dw, db]) == db * bit;
  }

  /** What the expression of a gate means. */
  lemma ItemSecret(x: Ctx, k: Keys, tabs: seq<seq<Table>>, vs: seq<int>, wires: map<Item, int>, bits: map<Item, int>,
                   it: Item)
    requires CtxOk(x) && ItemReady(x, k, tabs, vs, wires, bits, it)
    ensures var T, g := tabs[0][it.lane], x.gates[it.w];
      && it.w in T && it.w < |vs| && Known(T, Ins(g)) && (g.Simd? ==> |g.ins1| == |g.ins2|)
      && (Basic(g) ==> T[it.w].Product?) && (!Basic(g) ==> T[it.w].Compare?)
      && var e, ss := ItemExpr(x.m, g, PublicInputs(g, it.lane, wires), Get(bits, it)), LeafSecrets(x.m, T, g, it.w);
         InRange(e, |ss|) && Cong(x.m, Secret(e, ss), OpenSecret(x.m, T, g, vs, it.w, Get(bits, it)))
  {
    EntryOk(x, k, tabs, it, 1);
    InputsMasked(x, k, tabs, vs, wires, bits, it);
    hide GoodEntries, SameTables, Delta, DeltasOf, Ins, Dealt, Products, Masked, QExpr, GateVal, WellFormed, TPSecret,
         Cong, InRange, Secret, GateOk, Reduced, Hides, Basic, Interactive, CanSend, LaneOk,
         ItemExpr, LeafSecrets, OpenSecret;
    var T, g := tabs[0][it.lane], x.gates[it.w];
    if Basic(g) {
      ComputesAt(x, vs, it.w);
      BasicSecret(x.m, T, g, it.w, PublicInputs(g, it.lane, wires), vs, Get(bits, it));
    } else {
      CompareSecret(x.m, T, g, it.w, PublicInputs(g, it.lane, wires), vs, Get(bits, it));
    }
  }

  lemma ComputesAt(x: Ctx, vs: seq<int>, w: Wire)
    requires CtxOk(x) && Computes(x.m, x.gates, vs) && w < |x.gates| && Basic(x.gates[w]) && Interactive(x.gates[w])
    ensures Reduced(x.m, vs) && w < |vs| && GateOk(x.gates[w], |vs|) && vs[w] == GateVal(x.m, x.gates[w], vs, 0)
  {
  }

  function PartyLeaf(x: Ctx, tab: seq<Table>, it: Item): seq<Share>
    requires CtxOk(x) && CanSend(x, tab, it)
  {
    LeafShares(tab[it.lane], x.gates[it.w], it.w)
  }

  function PartyLeaves(x: Ctx, tabs: seq<seq<Table>>, it: Item): (p: seq<seq<Share>>)
    requires CtxOk(x) && |tabs| == x.c.nP + 1
    requires forall i :: 1 <= i <= x.c.nP ==> CanSend(x, tabs[i], it)
    ensures |p| == x.c.nP + 1
    ensures forall i :: 1 <= i <= x.c.nP ==> p[i] == PartyLeaf(x, tabs[i], it)
  {
    seq(x.c.nP + 1, i requires 0 <= i <= x.c.nP =>
      if i == 0 then [] else PartyLeaf(x, tabs[i], it))
  }

  /** The values the parties compute for a gate add up to its secret. */
  lemma ItemOpens(x: Ctx, k: Keys, tabs: seq<seq<Table>>, vs: seq<int>, wires: map<Item, int>, bits: map<Item, int>,
                  it: Item, vals: seq<int>)
    requires CtxOk(x) && ItemReady(x, k, tabs, vs, wires, bits, it)
    requires |k.sh| == x.c.nP + 1 && KeysOk(x.m, k.sh, k.key) && |vals| == x.c.nP
    requires forall i :: 1 <= i <= x.c.nP ==>
      CanSend(x, tabs[i], it) && vals[i - 1] == ItemShare(x, i, tabs[i], wires, bits, it).value
    ensures var T, g := tabs[0][it.lane], x.gates[it.w];
      && it.w in T && it.w < |vs| && (!Basic(g) ==> T[it.w].Compare?)
      && Cong(x.m, Sum(vals), OpenSecret(x.m, T, g, vs, it.w, Get(bits, it)))
  {
    LeavesDealt(x, k, tabs, it);
    ItemSecret(x, k, tabs, vs, wires, bits, it);
    hide Cong, LeafShares, LeafSecrets, AllDealt, SameShares, Dealt, LaneOk, Computes, WellFormed, BitOk,
         OpenSecret, Secret, InRange, Eval, ItemExpr, KeysOk, Hides;
    var T, g := tabs[0][it.lane], x.gates[it.w];
    var e, ss := ItemExpr(x.m, g, PublicInputs(g, it.lane, wires), Get(bits, it)), LeafSecrets(x.m, T, g, it.w);
    var d, p := LeafShares(T, g, it.w), PartyLeaves(x, tabs, it);
    forall i | 1 <= i <= x.c.nP
      ensures SameShares(x.c, i, d, p[i])
      ensures InRange(e, |p[i]|) && vals[i - 1] == Eval(x.m, e, Auths(p[i]), i).value
    {
      LeavesSame(x, k, tabs, it, i);
      ExprInRange(x, tabs[i], it, PublicInputs(g, it.lane, wires), Get(bits, it));
    }
    JointOpen(x.c, x.m, k, e, d, p, ss, vals);
    CongTrans(x.m, Sum(vals), Secret(e, ss), OpenSecret(x.m, T, g, vs, it.w, Get(bits, it)));
  }
}
