/** The two phases put together: nP parties and a dealer, from keys to outputs. */
module EndToEnd {
  import opened Circuits
  import opened Sharing
  import opened Dealing
  import opened Offline
  import opened Masks
  import opened Preprocess
  import opened CompareMasks
  import opened Online
  import opened Masking
  import opened LevelSteps
  import opened MacCheck
  import opened OnlineRun
  import opened OnlineMac
  import opened LtzArithmetic
  import opened LtzProtocol
  import opened PlainEvaluation
  import opened ZMod
  import CircuitBuilder

  /** What the parties are given: the circuit, who owns which input, the outputs. */
  datatype Task = Task(gates: seq<Gate>, owners: map<Wire, nat>, outputs: seq<Wire>)

  ghost predicate TaskOk(c: Config, m: nat, t: Task) {
    && c.nP > 0 && FieldModulus(m) && |t.gates| > 0
    && WellFormed(t.gates) && AllSupported(t.gates) && Below(t.outputs, |t.gates|)
    && forall w: Wire :: w < |t.gates| && t.gates[w].Inp? ==> w in t.owners && 0 < t.owners[w] <= c.nP
  }

  function LevelsOf(t: Task): seq<seq<Wire>>
    requires WellFormed(t.gates)
  {
    ByLevel(Levels(t.gates))
  }

  lemma TaskRunOk(c: Config, m: nat, id: nat, t: Task)
    requires TaskOk(c, m, t)
    ensures LevelOrdered(t.gates, LevelsOf(t))
    ensures RunOk(c, id, t.gates, Owned(t.owners), Flatten(LevelsOf(t)))
    ensures forall w: Wire :: w < |t.gates| ==> w in Flatten(LevelsOf(t))
  {
    hide WellFormed, ByLevel, Levels;
    var ls := LevelsOf(t);
    LevelOrderSound(t.gates);
    FlattenTopological(t.gates, ls, |ls|);
    assert ls[..|ls|] == ls;
  }

  lemma InnerFits(lanes: nat)
    ensures InnerOk(LtzInner(lanes)) && LevelOrdered(LtzInner(lanes).gates, LtzInner(lanes).ls)
    ensures |LtzInner(lanes).ls| > 0
  {
    hide InnerOk, LevelOrdered, LtzInner;
    LtzInnerShape(lanes);
  }

  /** One id's result of the offline phase. */
  function TableOf(c: Config, m: nat, t: Task, lanes: nat, id: nat): Table
    requires TaskOk(c, m, t) && id <= c.nP
  {
    InnerFits(lanes);
    TaskRunOk(c, m, 0, t);
    TaskRunOk(c, m, id, t);
    Preprocessing(c, id, m, LtzInner(lanes), Owned(t.owners), t.gates, Flatten(LevelsOf(t))).0
  }

  function Tables(c: Config, m: nat, t: Task, lanes: nat): (tabs: seq<seq<Table>>)
    requires TaskOk(c, m, t)
    ensures |tabs| == c.nP + 1 && forall id :: 0 <= id <= c.nP ==> tabs[id] == [TableOf(c, m, t, lanes, id)]
  {
    seq(c.nP + 1, id requires 0 <= id <= c.nP => [TableOf(c, m, t, lanes, id)])
  }

  // ---- the offline phase delivers ----------------------------------------------------------------

  lemma DealerKeysOk(c: Config, m: nat, pos: nat)
    requires m > 0 && c.nP > 0
    ensures var k := DealerKeys(c, m, pos); |k.sh| == c.nP + 1 && KeysOk(m, k.sh, k.key)
  {
    var k := DealerKeys(c, m, pos);
    SumModIsSum(m, k.sh);
  }

  lemma StartInStep(c: Config, m: nat, i: nat, lists: Full)
    requires m > 1 && c.nP > 0 && 1 <= i <= c.nP
    ensures var d := Full(StartCur(c, 0), EMPTY, EMPTY);
      var p := Full(StartCur(c, i), if i == c.nP then Received(lists.a) else EMPTY,
                    if i == c.nP then Received(lists.b) else EMPTY);
      && FullInStep(c, lists.a, lists.b, i, d, p) && FullKeyOf(c, i, KeysFor(c, 0, m), KeysFor(c, i, m))
  {
  }

  /** Party i's table is in step with the dealer's. */
  lemma TablesInStep(c: Config, m: nat, t: Task, lanes: nat, i: nat)
    requires TaskOk(c, m, t) && 1 <= i <= c.nP
    ensures SameTables(c, i, TableOf(c, m, t, lanes, 0), TableOf(c, m, t, lanes, i))
  {
    hide RunFull, AllSupported, RunOk, InnerOk, KeysFor, StartCur, SameTables, FullSent, Flatten, LevelsOf, LtzInner,
         LevelOrdered, WellFormed, FieldModulus, FullInStep, FullKeyOf;
    FieldAboveTwo(c, m, t);
    InnerFits(lanes);
    TaskRunOk(c, m, 0, t);
    TaskRunOk(c, m, i, t);
    var inner, inp, order := LtzInner(lanes), Owned(t.owners), Flatten(LevelsOf(t));
    var kd, kp := KeysFor(c, 0, m), KeysFor(c, i, m);
    var d := Full(StartCur(c, 0), EMPTY, EMPTY);
    var lists := Preprocessing(c, 0, m, inner, inp, t.gates, order).1;
    var p := Full(StartCur(c, i), if i == c.nP then Received(lists.a) else EMPTY,
                  if i == c.nP then Received(lists.b) else EMPTY);
    KeysFullOk(c, m, 0, d);
    KeysFullOk(c, m, i, p);
    StartInStep(c, m, i, lists);
    assert lists == RunFull(c, 0, m, kd, inner, inp, t.gates, order, |order|, d).1;
    SentAllLists(lists);
    RunFullInStep(c, m, lists.a, lists.b, i, kd, kp, inner, inp, t.gates, order, |order|, d, p);
  }

  lemma FieldAboveTwo(c: Config, m: nat, t: Task)
    requires TaskOk(c, m, t)
    ensures m > 2
  {
  }

  lemma SentAllLists(lists: Full)
    ensures FullSent(lists.a, lists.b, lists)
  {
  }

  lemma KeysFullOk(c: Config, m: nat, id: nat, st: Full)
    requires m > 1 && c.nP > 0 && id <= c.nP && |st.cur| == c.nP + 1
    ensures FullOk(c, id, KeysFor(c, id, m), st)
  {
  }

  /** The dealer's table is good. */
  lemma DealerTableGood(c: Config, m: nat, t: Task, lanes: nat)
    requires TaskOk(c, m, t)
    ensures InnerOk(LtzInner(lanes))
    ensures var T := TableOf(c, m, t, lanes, 0);
      && GoodTable(m, KeysFor(c, 0, m), LtzInner(lanes), t.gates, T)
      && (forall w: Wire :: w < |t.gates| ==> w in T)
      && (forall w: Wire :: w < |t.gates| && t.gates[w].Inp? ==>
            w in T && T[w].Input? && T[w].owner == t.owners[w] && Cong(m, T[w].maskValue, Delta(m, T, w)))
  {
    hide RunFull, AllSupported, InnerOk, StartCur, Flatten, LevelsOf, LtzInner, LevelOrdered, WellFormed, FieldModulus,
         GoodTable, Cong, Delta, KeysOk, Topological, Sum, SumMod, TableOf, RunOk, InputMask;
    FieldAboveTwo(c, m, t);
    InnerFits(lanes);
    TaskRunOk(c, m, 0, t);
    var inner, inp, order := LtzInner(lanes), Owned(t.owners), Flatten(LevelsOf(t));
    DealerTableIs(c, m, t, lanes);
    KeysFullOk(c, m, 0, Full(StartCur(c, 0), EMPTY, EMPTY));
    DealerKeysOk(c, m, 0);
    DealerKeysOk(c, 2, 1);
    RunFullGood(c, m, KeysFor(c, 0, m), inner, inp, t.gates, order, |order|, Full(StartCur(c, 0), EMPTY, EMPTY));
    assert order[..|order|] == order;
    var T := TableOf(c, m, t, lanes, 0);
    forall w: Wire | w < |t.gates| && t.gates[w].Inp?
      ensures w in T && T[w].Input? && T[w].owner == t.owners[w] && Cong(m, T[w].maskValue, Delta(m, T, w))
    {
      InputEntry(c, m, t, order, T, w);
    }
  }

  lemma InputEntry(c: Config, m: nat, t: Task, order: seq<Wire>, T: Table, w: Wire)
    requires m > 0 && w in order && w < |t.gates| && t.gates[w].Inp?
    requires forall i :: 0 <= i < |order| ==> order[i] < |t.gates|
    requires GoodInputs(c, m, Owned(t.owners), t.gates, order, T)
    ensures w in T && w in t.owners && T[w].Input? && T[w].owner == t.owners[w]
      && Cong(m, T[w].maskValue, Delta(m, T, w))
  {
    hide Cong, Delta;
    var j :| 0 <= j < |order| && order[j] == w;
    assert InputMask(c, m, Owned(t.owners), T, order[j], SeenInputs(t.gates, order[..j]));
  }

  lemma DealerTableIs(c: Config, m: nat, t: Task, lanes: nat)
    requires TaskOk(c, m, t)
    ensures InnerOk(LtzInner(lanes)) && RunOk(c, 0, t.gates, Owned(t.owners), Flatten(LevelsOf(t)))
    ensures FullOk(c, 0, KeysFor(c, 0, m), Full(StartCur(c, 0), EMPTY, EMPTY))
    ensures TableOf(c, m, t, lanes, 0)
      == RunFull(c, 0, m, KeysFor(c, 0, m), LtzInner(lanes), Owned(t.owners), t.gates, Flatten(LevelsOf(t)),
                 |Flatten(LevelsOf(t))|, Full(StartCur(c, 0), EMPTY, EMPTY)).0
  {
    hide RunFull, AllSupported, InnerOk, Flatten, LevelsOf, LtzInner, LevelOrdered, WellFormed, FieldModulus, RunOk;
    FieldAboveTwo(c, m, t);
    InnerFits(lanes);
    TaskRunOk(c, m, 0, t);
    KeysFullOk(c, m, 0, Full(StartCur(c, 0), EMPTY, EMPTY));
  }

  // ---- the online phase ------------------------------------------------------------------------------

  function FieldCtx(c: Config, m: nat, t: Task, shift: Item -> int): Ctx {
    Ctx(c, m, t.gates, (it, i) => 0, shift)
  }

  ghost predicate InputsGiven(t: Task, inputs: map<Wire, int>) {
    forall w: Wire :: w < |t.gates| && t.gates[w].Inp? ==> w in inputs
  }

  /** What party i puts on its input wires: for each, the masked value announced by the owner
      named in its own table. */
  function InputWires(c: Config, m: nat, t: Task, tabs: seq<seq<Table>>, level0: seq<Wire>, inputs: map<Wire, int>,
                      i: nat)
    : (r: map<Item, int>)
    requires m > 0 && |tabs| == c.nP + 1 && i <= c.nP && |tabs[i]| > 0
    requires forall j :: 0 <= j <= c.nP ==> |tabs[j]| > 0
  {
    map it: Item | it in Row(0, level0) && it.w < |t.gates| && t.gates[it.w].Inp? ::
      Announced(c, m, tabs, inputs, i, it.w)
  }

  function Announced(c: Config, m: nat, tabs: seq<seq<Table>>, inputs: map<Wire, int>, i: nat, w: Wire): int
    requires m > 0 && |tabs| == c.nP + 1 && i <= c.nP
    requires forall j :: 0 <= j <= c.nP ==> |tabs[j]| > 0
  {
    if w in tabs[i][0] && tabs[i][0][w].Input? && tabs[i][0][w].owner <= c.nP && w in inputs then
      MaskedInput(m, tabs[tabs[i][0][w].owner][0], inputs[w], w)
    else 0
  }

  /** The owner's message. */
  function MaskedInput(m: nat, tab: Table, value: int, w: Wire): int
    requires m > 0
  {
    if w in tab && tab[w].Input? then Add(m, tab[w].maskValue, value) else 0
  }

  function StartViews(c: Config, m: nat, t: Task, tabs: seq<seq<Table>>, level0: seq<Wire>, inputs: map<Wire, int>)
    : (v: seq<View>)
    requires m > 0 && |tabs| == c.nP + 1 && forall j :: 0 <= j <= c.nP ==> |tabs[j]| > 0
    ensures |v| == c.nP + 1
    ensures forall i :: 0 <= i <= c.nP ==> v[i].wires == v[i].qVal == InputWires(c, m, t, tabs, level0, inputs, i)
  {
    seq(c.nP + 1, i requires 0 <= i <= c.nP =>
      View(InputWires(c, m, t, tabs, level0, inputs, i), InputWires(c, m, t, tabs, level0, inputs, i), map[]))
  }

  /** The masked bits of comparisons, level by level. */
  ghost function FieldBits(x: Ctx, k: FullKeys, inner: Inner, tabs: seq<seq<Table>>, ls: seq<seq<Wire>>,
                           noise: nat -> Noise): BitSource
    requires FieldOk(x, k, inner, tabs) && LevelOrdered(x.gates, ls)
  {
    (l: nat, v: View) => if l < |ls| then LevelBits(x, k, inner, tabs, ls, l, noise(l), v.wires) else map[]
  }

  ghost function LevelBits(x: Ctx, k: FullKeys, inner: Inner, tabs: seq<seq<Table>>, ls: seq<seq<Wire>>, l: nat,
                           noise: Noise, wires: map<Item, int>): map<Item, int>
    requires FieldOk(x, k, inner, tabs) && LevelOrdered(x.gates, ls) && l < |ls|
  {
    LevelBelow(x, ls, l);
    FieldEntries(x, k, inner, tabs, LtzWires(x.gates, ls[l]));
    LtzBits(x, k, inner, tabs, LtzWires(x.gates, ls[l]), noise, wires)
  }

  /** The masked bits are right whenever the wires below are. */
  lemma LevelBitsGood(x: Ctx, k: FullKeys, inner: Inner, lanes: nat, tabs: seq<seq<Table>>, ls: seq<seq<Wire>>, l: nat,
                      noise: Noise, vs: seq<int>, wires: map<Item, int>)
    requires lanes == 2 && inner == LtzInner(lanes) && FieldOk(x, k, inner, tabs) && FieldModulus(x.m)
    requires LevelOrdered(x.gates, ls) && l < |ls| && |vs| == |x.gates| && Reduced(x.m, vs)
    requires forall w :: 0 <= w < |x.gates| && x.gates[w].Unary? ==>
      x.gates[w].inp < |vs| && vs[w] == ComparedVal(x.m, vs[x.gates[w].inp], x.shift(Item(0, w)))
    requires AllHide(x, tabs, [vs], wires, Known0(x, 1, Flatten(ls[..l])))
    requires Clean(noise)
    ensures AllBitsOk(x, k.a, tabs, [vs], LevelBits(x, k, inner, tabs, ls, l, noise, wires), LevelItems(1, ls[l]))
  {
    hide FieldModulus, InnerOk, LtzInner, LaneOk, KeysOk, GoodCompare, LtzBits, BitOk, Hides, ComparedVal, Flatten,
         WellFormed, LevelItems, LtzWires;
    LevelBelow(x, ls, l);
    var items, ws := LevelItems(1, ls[l]), LtzWires(x.gates, ls[l]);
    FieldEntries(x, k, inner, tabs, ws);
    forall j | 0 <= j < |items|
      ensures BitsOk(x, k.a, tabs, [vs], LevelBits(x, k, inner, tabs, ls, l, noise, wires), items[j])
    {
      var w := items[j].w;
      LevelItemsMember(1, ls[l], items[j]);
      if w < |x.gates| && x.gates[w].Unary? {
        LtzWiresAll(x.gates, ls[l], w);
        InputBelow(x, ls, l, w);
        assert HidesItem(x, tabs, [vs], wires, Item(0, x.gates[w].inp));
        LtzBitGood(x, k, inner, lanes, tabs, ws, noise, vs, wires, w);
        assert items[j] == Item(0, w);
      }
    }
  }

  /** One party's masked bit of comparison w, from its own table, its own public wires and its
      own view of the comparators. */
  ghost function PartyBit(x: Ctx, k: FullKeys, inner: Inner, tabs: seq<seq<Table>>, ws: seq<Wire>, noise: Noise,
                          wires: map<Item, int>, i: nat, w: Wire): int
    requires FieldOk(x, k, inner, tabs) && AllFit(x, tabs, ws) && Comparisons(x, ws) && 1 <= i <= x.c.nP
  {
    LtzBitOf(x, inner, tabs[i][0], ws, BoolRun(x, k, inner, tabs, ws, noise, wires)[i], wires, w)
  }

  lemma BoolViews(x: Ctx, k: FullKeys, inner: Inner, tabs: seq<seq<Table>>, ws: seq<Wire>, noise: Noise,
                  wires: map<Item, int>, i: nat)
    requires FieldOk(x, k, inner, tabs) && AllFit(x, tabs, ws) && Comparisons(x, ws) && 1 <= i <= x.c.nP
    ensures var after := BoolRun(x, k, inner, tabs, ws, noise, wires); after[i].wires == after[1].wires
  {
    BoolHeld(x, k, inner, tabs, ws, noise);
    hide LaneOk, KeysOk, LevelOrdered, GoodCompare, EntriesFit, WellFormed, Topological, Held, BoolWires, AllFit, Run,
         AllBasic;
    var views := BoolStart(x, inner, tabs, ws, wires);
    var start := BoolWires(x.m, x.gates, inner, tabs[1][0], ws, wires);
    forall j | 1 <= j <= x.c.nP ensures views[j].wires == start {
      StartAgrees(x, k, inner, tabs, ws, wires, j);
    }
    RunAgrees(BoolCtx(x, inner, noise), k.b, InnerTables(x, tabs, ws), NoBits(), |ws|, inner.ls, |inner.ls|, views,
              start, map[]);
  }

  /** Every party computes the same bits, whatever is added to the comparators' openings: one
      of them may stand for all. */
  lemma BitsAgree(x: Ctx, k: FullKeys, inner: Inner, tabs: seq<seq<Table>>, ws: seq<Wire>, noise: Noise,
                  views: seq<View>, wires: map<Item, int>, i: nat, w: Wire)
    requires FieldOk(x, k, inner, tabs) && AllFit(x, tabs, ws) && Comparisons(x, ws) && Agree(x, views, wires)
    requires 1 <= i <= x.c.nP && w in ws
    ensures PartyBit(x, k, inner, tabs, ws, noise, views[i].wires, i, w)
         == Get(LtzBits(x, k, inner, tabs, ws, noise, wires), Item(0, w))
  {
    BoolViews(x, k, inner, tabs, ws, noise, wires, i);
    hide LaneOk, KeysOk, LevelOrdered, GoodCompare, WellFormed, BoolRun, LtzBit, Padded, GoodEntries, InnerOk,
         SameBasic;
    RowMember(ws, w);
    var q := IndexOf(ws, w);
    assert SameTables(x.c, i, tabs[0][0], tabs[i][0]) && SameTables(x.c, 1, tabs[0][0], tabs[1][0]);
    assert SameCompare(x.c, i, tabs[0][0][w], tabs[i][0][w]) && SameCompare(x.c, 1, tabs[0][0][w], tabs[1][0][w]);
  }

  lemma InputBelow(x: Ctx, ls: seq<seq<Wire>>, l: nat, w: Wire)
    requires LevelOrdered(x.gates, ls) && l < |ls| && w in ls[l] && w < |x.gates| && x.gates[w].Unary?
    ensures Item(0, x.gates[w].inp) in Known0(x, 1, Flatten(ls[..l]))
  {
    var j :| 0 <= j < |ls[l]| && ls[l][j] == w;
    assert PlaceOk(x.gates, ls, l, j);
    assert x.gates[w].inp in Ins(x.gates[w]);
  }

  // ---- the joint run -------------------------------------------------------------------------------------

  /** A run: the task, the inputs, the random streams, and what is added to openings: level by
      level inside the comparisons, gate by gate elsewhere. */
  datatype Session = Session(c: Config, m: nat, t: Task, inputs: map<Wire, int>, noise: nat -> Noise,
                             rho: nat -> int, shift: Item -> int)

  ghost predicate SessionOk(s: Session) {
    TaskOk(s.c, s.m, s.t) && InputsGiven(s.t, s.inputs)
  }

  /** Everything the offline phase establishes for the online phase. */
  lemma SessionFieldOk(s: Session, lanes: nat)
    requires SessionOk(s)
    ensures FieldOk(FieldCtx(s.c, s.m, s.t, s.shift), KeysFor(s.c, 0, s.m), LtzInner(lanes),
                    Tables(s.c, s.m, s.t, lanes))
    ensures LevelOrdered(s.t.gates, LevelsOf(s.t))
  {
    hide GoodEntries, GoodCompare, LtzInner, LevelOrdered, WellFormed, FieldModulus, KeysOk, TableOf, SameTables,
         AllSupported, LevelsOf, KeysFor, InnerOk, Flatten, Cong, Delta;
    FieldAboveTwo(s.c, s.m, s.t);
    var x, k, tabs := FieldCtx(s.c, s.m, s.t, s.shift), KeysFor(s.c, 0, s.m), Tables(s.c, s.m, s.t, lanes);
    InnerFits(lanes);
    TaskRunOk(s.c, s.m, 0, s.t);
    DealerTableGood(s.c, s.m, s.t, lanes);
    SessionKeys(s.c, s.m);
    forall i | 1 <= i <= s.c.nP ensures SameTables(s.c, i, tabs[0][0], tabs[i][0]) {
      TablesInStep(s.c, s.m, s.t, lanes, i);
    }
  }

  lemma SessionKeys(c: Config, m: nat)
    requires m > 0 && c.nP > 0
    ensures var k := KeysFor(c, 0, m);
      && |k.a.sh| == |k.b.sh| == c.nP + 1 && KeysOk(m, k.a.sh, k.a.key) && KeysOk(2, k.b.sh, k.b.key)
  {
    hide KeysOk;
    DealerKeysOk(c, m, 0);
    DealerKeysOk(c, 2, 1);
  }

  ghost predicate Ready(s: Session, x: Ctx, k: FullKeys, inner: Inner, tabs: seq<seq<Table>>, ls: seq<seq<Wire>>)
  {
    && FieldOk(x, k, inner, tabs) && LevelOrdered(x.gates, ls) && |ls| > 0 && AllSupported(x.gates)
    && x.m == s.m && x.c == s.c && x.gates == s.t.gates
    && forall j :: 0 <= j <= x.c.nP ==> |tabs[j]| == 1
  }

  lemma ReadyHeld(s: Session, x: Ctx, k: FullKeys, inner: Inner, tabs: seq<seq<Table>>, ls: seq<seq<Wire>>)
    requires Ready(s, x, k, inner, tabs, ls)
    ensures Held(x, k.a, tabs, 1)
  {
    hide GoodEntries, LevelOrdered, WellFormed, KeysOk, SameTables, InnerOk, Interactive, GoodInner, Cong, Dealt;
    forall it: Item | it.lane < 1 && it.w < |x.gates| && Interactive(x.gates[it.w]) ensures ItemHeld(x, k.a, tabs, it) {
      if Basic(x.gates[it.w]) {
        HoldsBasic(x, k.a, tabs, it);
      } else {
        assert GoodCompare(x.m, k, inner, tabs[0][0], x.gates[it.w].inp, it.w);
      }
    }
  }

  lemma SessionReady(s: Session, lanes: nat)
    requires SessionOk(s)
    ensures Ready(s, FieldCtx(s.c, s.m, s.t, s.shift), KeysFor(s.c, 0, s.m), LtzInner(lanes),
                  Tables(s.c, s.m, s.t, lanes),
                  LevelsOf(s.t))
  {
    hide FieldOk, LevelOrdered, FieldModulus, WellFormed, LtzInner, TableOf, Levels, AllSupported;
    SessionFieldOk(s, lanes);
  }

  function FirstLevel(ls: seq<seq<Wire>>): seq<Wire> {
    if |ls| > 0 then ls[0] else []
  }

  /** All parties' views after the last level. */
  ghost function Final(s: Session, lanes: nat): (after: seq<View>)
    requires SessionOk(s)
    ensures |after| == s.c.nP + 1
  {
    SessionReady(s, lanes);
    var x, k, inner, tabs, ls := FieldCtx(s.c, s.m, s.t, s.shift), KeysFor(s.c, 0, s.m), LtzInner(lanes),
                                 Tables(s.c, s.m, s.t, lanes), LevelsOf(s.t);
    ReadyHeld(s, x, k, inner, tabs, ls);
    Run(x, k.a, tabs, FieldBits(x, k, inner, tabs, ls, s.noise), 1, ls, |ls|,
        StartViews(s.c, s.m, s.t, tabs, FirstLevel(ls), s.inputs))
  }

  /** Each party's key share, read from the mask of wire 0. */
  function KeyShares(c: Config, tabs: seq<seq<Table>>): (ks: seq<int>)
    requires |tabs| == c.nP + 1 && forall j :: 0 <= j <= c.nP ==> |tabs[j]| > 0
    ensures |ks| == c.nP + 1
    ensures forall i :: 0 <= i <= c.nP ==> ks[i] == if i > 0 && 0 in tabs[i][0] then tabs[i][0][0].mask.auth.key else 0
  {
    seq(c.nP + 1, i requires 0 <= i <= c.nP => if i > 0 && 0 in tabs[i][0] then tabs[i][0][0].mask.auth.key else 0)
  }

  ghost function SessionResidue(s: Session, lanes: nat): int
    requires SessionOk(s)
  {
    SessionReady(s, lanes);
    var x, tabs, ls := FieldCtx(s.c, s.m, s.t, s.shift), Tables(s.c, s.m, s.t, lanes), LevelsOf(s.t);
    MacOrderOk(x, ls);
    Residue(x, MacOrder(ls), s.rho, KeyShares(s.c, tabs), Final(s, lanes))
  }

  /** The dealer's announcement of a wire's mask. */
  function OutputMask(m: nat, T: Table, w: Wire): int
    requires m > 0
  {
    if w in T then Delta(m, T, w) else 0
  }

  function Unmasked(m: nat, T: Table, wires: map<Item, int>, outputs: seq<Wire>): (out: seq<int>)
    requires m > 0
    ensures |out| == |outputs|
    ensures forall o :: 0 <= o < |out| ==>
      out[o] == Sub(m, Get(wires, Item(0, outputs[o])), OutputMask(m, T, outputs[o]))
  {
    seq(|outputs|,
        o requires 0 <= o < |outputs| => Sub(m, Get(wires, Item(0, outputs[o])), OutputMask(m, T, outputs[o])))
  }

  /** What party i returns: the unmasked outputs if the check passes, zeros otherwise. */
  ghost function Returned(s: Session, lanes: nat, i: nat): (out: seq<int>)
    requires SessionOk(s) && 1 <= i <= s.c.nP
    ensures |out| == |s.t.outputs|
  {
    if SessionResidue(s, lanes) == 0 then
      Unmasked(s.m, TableOf(s.c, s.m, s.t, lanes, 0), Final(s, lanes)[i].wires, s.t.outputs)
    else
      seq(|s.t.outputs|, o => 0)
  }

  lemma KeyShareIs(x: Ctx, k: FullKeys, inner: Inner, tabs: seq<seq<Table>>, i: nat)
    requires FieldOk(x, k, inner, tabs) && |x.gates| > 0 && 1 <= i <= x.c.nP
    requires forall j :: 0 <= j <= x.c.nP ==> |tabs[j]| > 0
    ensures KeyShares(x.c, tabs)[i] == k.a.sh[i]
  {
    hide GoodCompare, LevelOrdered, WellFormed, InnerOk, Cong, Delta, SameBasic, KeysOk, Dealt;
    assert LaneOk(x, k.a, tabs, 0);
    assert 0 in tabs[0][0] && GoodPre(x.m, k.a, x.gates[0], tabs[0][0], 0);
    assert SameTables(x.c, i, tabs[0][0], tabs[i][0]);
    KeyOfEntry(x.c, x.m, k.a, i, tabs[0][0], tabs[i][0], 0);
  }

  lemma KeySharesAre(x: Ctx, k: FullKeys, inner: Inner, tabs: seq<seq<Table>>)
    requires FieldOk(x, k, inner, tabs) && |x.gates| > 0
    requires forall j :: 0 <= j <= x.c.nP ==> |tabs[j]| > 0
    ensures KeyShares(x.c, tabs) == k.a.sh
  {
    hide GoodCompare, LevelOrdered, WellFormed, InnerOk, Cong, LaneOk;
    var ks := KeyShares(x.c, tabs);
    forall i | 1 <= i <= x.c.nP ensures ks[i] == k.a.sh[i] {
      KeyShareIs(x, k, inner, tabs, i);
    }
  }

  lemma KeyOfEntry(c: Config, m: nat, k: Keys, i: nat, d: Table, p: Table, w: Wire)
    requires m > 0 && w in d && SameTable(c, i, d, p) && Dealt(m, k, d[w].mask.tp, Delta(m, d, w))
    requires 1 <= i <= c.nP && |k.sh| == c.nP + 1
    ensures w in p && p[w].mask.auth.key == k.sh[i]
  {
    assert SameBasic(c, i, d[w], p[w]);
  }

  // ---- inputs -------------------------------------------------------------------------------------------

  lemma InputsFirst(gates: seq<Gate>, w: Wire)
    requires WellFormed(gates) && w < |gates| && gates[w].Inp?
    ensures |ByLevel(Levels(gates))| > 0 && w in ByLevel(Levels(gates))[0]
  {
    hide WellFormed, Levels;
    LevelsAt(gates, w);
    OnLevelSpec(Levels(gates), 0);
  }

  /** What the owner announces for an input wire. */
  function OwnerSays(c: Config, m: nat, t: Task, lanes: nat, inputs: map<Wire, int>, w: Wire): int
    requires TaskOk(c, m, t) && w in t.owners && t.owners[w] <= c.nP && w in inputs
  {
    MaskedInput(m, TableOf(c, m, t, lanes, t.owners[w]), inputs[w], w)
  }

  /** Everyone gets the owner's message ... */
  lemma InputAnnounced(c: Config, m: nat, t: Task, lanes: nat, inputs: map<Wire, int>, i: nat, w: Wire)
    requires TaskOk(c, m, t) && w < |t.gates| && t.gates[w].Inp? && w in inputs && 1 <= i <= c.nP
    ensures Announced(c, m, Tables(c, m, t, lanes), inputs, i, w) == OwnerSays(c, m, t, lanes, inputs, w)
  {
    hide FieldModulus, WellFormed, LtzInner, TableOf, Levels, AllSupported, GoodTable, LevelOrdered, InnerOk, Cong,
         Delta, MaskedInput;
    FieldAboveTwo(c, m, t);
    DealerTableGood(c, m, t, lanes);
    TablesInStep(c, m, t, lanes, i);
    assert SameBasic(c, i, TableOf(c, m, t, lanes, 0)[w], TableOf(c, m, t, lanes, i)[w]);
  }

  /** ... and it hides the input. */
  lemma InputHidden(c: Config, m: nat, t: Task, lanes: nat, inputs: map<Wire, int>, w: Wire, v: int)
    requires TaskOk(c, m, t) && w < |t.gates| && t.gates[w].Inp? && w in inputs
    requires v == OwnerSays(c, m, t, lanes, inputs, w)
    ensures w in TableOf(c, m, t, lanes, 0) && 0 <= v < m
    ensures Cong(m, v, inputs[w] % m + Delta(m, TableOf(c, m, t, lanes, 0), w))
  {
    hide FieldModulus, WellFormed, LtzInner, TableOf, Levels, AllSupported, GoodTable, LevelOrdered, InnerOk, Cong,
         Delta;
    FieldAboveTwo(c, m, t);
    DealerTableGood(c, m, t, lanes);
    TablesInStep(c, m, t, lanes, t.owners[w]);
    var T, own := TableOf(c, m, t, lanes, 0), TableOf(c, m, t, lanes, t.owners[w]);
    assert SameBasic(c, t.owners[w], T[w], own[w]);
    InputMaskCong(m, T[w].maskValue, Delta(m, T, w), inputs[w]);
  }

  lemma InputMaskCong(m: nat, mask: int, d: int, v: int)
    requires m > 0 && Cong(m, mask, d)
    ensures Cong(m, Add(m, mask, v), v % m + d)
  {
    CongMod(m, mask + v);
    CongMod(m, v);
    CongAdd(m, mask, d, v, v % m);
  }

  lemma WiresSet(c: Config, m: nat, t: Task, lanes: nat, inputs: map<Wire, int>, level0: seq<Wire>, i: nat, w: Wire)
    requires TaskOk(c, m, t) && w < |t.gates| && t.gates[w].Inp? && 1 <= i <= c.nP && w in level0
    ensures Get(InputWires(c, m, t, Tables(c, m, t, lanes), level0, inputs, i), Item(0, w))
         == Announced(c, m, Tables(c, m, t, lanes), inputs, i, w)
  {
    hide FieldModulus, WellFormed, LtzInner, TableOf, Levels, AllSupported, Announced;
    RowMember(level0, w);
  }

  lemma InputWiresSame(c: Config, m: nat, t: Task, lanes: nat, inputs: map<Wire, int>, level0: seq<Wire>, i: nat)
    requires TaskOk(c, m, t) && 1 <= i <= c.nP && InputsGiven(t, inputs)
    ensures InputWires(c, m, t, Tables(c, m, t, lanes), level0, inputs, i)
         == InputWires(c, m, t, Tables(c, m, t, lanes), level0, inputs, 1)
  {
    hide FieldModulus, WellFormed, LtzInner, TableOf, Levels, AllSupported, Announced, OwnerSays, Cong, Delta;
    FieldAboveTwo(c, m, t);
    forall w: Wire | w < |t.gates| && t.gates[w].Inp?
      ensures Announced(c, m, Tables(c, m, t, lanes), inputs, i, w)
        == Announced(c, m, Tables(c, m, t, lanes), inputs, 1, w)
    {
      InputAnnounced(c, m, t, lanes, inputs, i, w);
      InputAnnounced(c, m, t, lanes, inputs, 1, w);
    }
  }

  /** The plain values of a session. */
  function PlainOf(s: Session): (vs: seq<int>)
    requires SessionOk(s)
    ensures |vs| == |s.t.gates|
  {
    PlainAll(s.m, s.t.gates, s.inputs)
  }

  /** What a session adds to the openings of its comparisons. */
  function ChangesOf(shift: Item -> int): Changes {
    (w: Wire) => shift(Item(0, w))
  }

  /** The values that its wires really have, if comparisons alone are tampered with. */
  function ValuesOf(s: Session): (vs: seq<int>)
    requires SessionOk(s)
    ensures |vs| == |s.t.gates|
  {
    ChangedAll(s.m, s.t.gates, s.inputs, ChangesOf(s.shift))
  }

  lemma PlainInput(s: Session, w: Wire)
    requires SessionOk(s) && w < |s.t.gates| && s.t.gates[w].Inp?
    ensures w in s.inputs && ValuesOf(s)[w] == s.inputs[w] % s.m
  {
    hide FieldModulus, WellFormed, AllSupported, ChangedAll;
    FieldAboveTwo(s.c, s.m, s.t);
    ChangedAt(s.m, s.t.gates, s.inputs, ChangesOf(s.shift), w);
  }

  ghost function StartWires(s: Session, lanes: nat): map<Item, int>
    requires SessionOk(s)
  {
    FieldAboveTwo(s.c, s.m, s.t);
    InputWires(s.c, s.m, s.t, Tables(s.c, s.m, s.t, lanes), FirstLevel(LevelsOf(s.t)), s.inputs, 1)
  }

  /** Before the first level the inputs hide their values. */
  lemma SessionStart(s: Session, lanes: nat)
    requires SessionOk(s)
    ensures var x, tabs := FieldCtx(s.c, s.m, s.t, s.shift), Tables(s.c, s.m, s.t, lanes);
      && CtxOk(x)
         && Agree(x, StartViews(s.c, s.m, s.t, tabs, FirstLevel(LevelsOf(s.t)), s.inputs), StartWires(s, lanes))
      && AllHide(x, tabs, [ValuesOf(s)], StartWires(s, lanes), Known0(x, 1, []))
  {
    hide FieldModulus, LtzInner, TableOf, Levels, AllSupported, InputWires, Cong, ValuesOf, WellFormed, Announced,
         Delta, OwnerSays, ByLevel;
    var x, tabs := FieldCtx(s.c, s.m, s.t, s.shift), Tables(s.c, s.m, s.t, lanes);
    var level0 := FirstLevel(LevelsOf(s.t));
    FieldAboveTwo(s.c, s.m, s.t);
    forall i | 1 <= i <= s.c.nP
      ensures InputWires(s.c, s.m, s.t, tabs, level0, s.inputs, i)
        == InputWires(s.c, s.m, s.t, tabs, level0, s.inputs, 1)
    {
      InputWiresSame(s.c, s.m, s.t, lanes, s.inputs, level0, i);
    }
    forall it | it in Known0(x, 1, []) ensures HidesItem(x, tabs, [ValuesOf(s)], StartWires(s, lanes), it) {
      PlainInput(s, it.w);
      InputsFirst(s.t.gates, it.w);
      InputAnnounced(s.c, s.m, s.t, lanes, s.inputs, 1, it.w);
      InputHidden(s.c, s.m, s.t, lanes, s.inputs, it.w, OwnerSays(s.c, s.m, s.t, lanes, s.inputs, it.w));
      WiresSet(s.c, s.m, s.t, lanes, s.inputs, level0, 1, it.w);
      assert it == Item(0, it.w);
      PlainSize(s);
    }
  }

  lemma PlainSize(s: Session)
    requires SessionOk(s)
    ensures s.m > 1 && |ValuesOf(s)| == |s.t.gates| && Reduced(s.m, ValuesOf(s))
  {
  }

  // ---- the main results ------------------------------------------------------------------------------------

  /** Nothing is added to any opening, neither of the gates nor inside the comparisons. */
  ghost predicate Honest(s: Session) {
    (forall it: Item :: s.shift(it) == 0) && forall l: nat :: Clean(s.noise(l))
  }

  /** Only openings of comparison gates may have been changed. */
  ghost predicate ComparisonsOnly(s: Session) {
    && (forall it: Item :: s.shift(it) != 0 ==> it.w < |s.t.gates| && s.t.gates[it.w].Unary?)
    && forall l: nat :: Clean(s.noise(l))
  }

  /** In an honest run the values are the plain ones. */
  lemma HonestValues(s: Session)
    requires SessionOk(s) && Honest(s)
    ensures ValuesOf(s) == PlainOf(s) && ComparisonsOnly(s)
  {
    hide FieldModulus, WellFormed, AllSupported, ChangedAll;
    FieldAboveTwo(s.c, s.m, s.t);
    SameChanges(s.m, s.t.gates, s.inputs, ChangesOf(s.shift), _ => 0);
  }

  lemma PlainComparisons(s: Session)
    requires SessionOk(s)
    ensures s.m > 1 && |ValuesOf(s)| == |s.t.gates| && Reduced(s.m, ValuesOf(s))
    ensures forall w :: 0 <= w < |s.t.gates| && s.t.gates[w].Unary? ==>
      s.t.gates[w].inp < |ValuesOf(s)|
      && ValuesOf(s)[w] == ComparedVal(s.m, ValuesOf(s)[s.t.gates[w].inp], s.shift(Item(0, w)))
  {
    hide FieldModulus, WellFormed, AllSupported, ChangedAll, ComparedVal, GateVal;
    FieldAboveTwo(s.c, s.m, s.t);
    forall w | 0 <= w < |s.t.gates| && s.t.gates[w].Unary?
      ensures s.t.gates[w].inp < |ValuesOf(s)|
      && ValuesOf(s)[w] == ComparedVal(s.m, ValuesOf(s)[s.t.gates[w].inp], s.shift(Item(0, w)))
    {
      ChangedAt(s.m, s.t.gates, s.inputs, ChangesOf(s.shift), w);
    }
  }

  lemma SessionPrepared(s: Session, lanes: nat)
    requires SessionOk(s) && ComparisonsOnly(s)
    ensures var x, k, tabs := FieldCtx(s.c, s.m, s.t, s.shift), KeysFor(s.c, 0, s.m), Tables(s.c, s.m, s.t, lanes);
      CtxOk(x) && Prepared(x, k.a, tabs, [ValuesOf(s)])
  {
    hide FieldModulus, WellFormed, LtzInner, TableOf, LevelsOf, GoodCompare, LaneOk, Computes, KeysOk, InnerOk,
         LevelOrdered, Basic, KeysFor, ChangedAll;
    FieldAboveTwo(s.c, s.m, s.t);
    SessionFieldOk(s, lanes);
    ChangedComputes(s.m, s.t.gates, s.inputs, ChangesOf(s.shift));
  }

  lemma SessionBits(s: Session, lanes: nat)
    requires SessionOk(s) && ComparisonsOnly(s) && lanes == 2
    ensures var x, k, tabs, ls := FieldCtx(s.c, s.m, s.t, s.shift), KeysFor(s.c, 0, s.m), Tables(s.c, s.m, s.t, lanes),
                                  LevelsOf(s.t);
      && FieldOk(x, k, LtzInner(lanes), tabs) && LevelOrdered(x.gates, ls) && CtxOk(x)
      && GoodBits(x, k.a, tabs, [ValuesOf(s)], FieldBits(x, k, LtzInner(lanes), tabs, ls, s.noise), ls)
  {
    hide FieldModulus, WellFormed, LtzInner, TableOf, LevelsOf, LevelOrdered, AllSupported, FieldOk, AllHide, AllBitsOk,
         LevelBits, ValuesOf, Known0, KeysFor, LevelItems;
    FieldAboveTwo(s.c, s.m, s.t);
    var x, k, inner, tabs, ls := FieldCtx(s.c, s.m, s.t, s.shift), KeysFor(s.c, 0, s.m), LtzInner(lanes),
                                 Tables(s.c, s.m, s.t, lanes), LevelsOf(s.t);
    SessionFieldOk(s, lanes);
    PlainComparisons(s);
    var vs := ValuesOf(s);
    forall l: nat, v: View | l < |ls| && AllHide(x, tabs, [vs], v.wires, Known0(x, |[vs]|, Flatten(ls[..l])))
      ensures AllBitsOk(x, k.a, tabs, [vs], FieldBits(x, k, inner, tabs, ls, s.noise)(l, v), LevelItems(|[vs]|, ls[l]))
    {
      LevelBitsGood(x, k, inner, lanes, tabs, ls, l, s.noise(l), vs, v.wires);
    }
  }

  /** Every wire ends as its value plus its mask, at every party. */
  lemma FinalHides(s: Session, lanes: nat)
    requires SessionOk(s) && ComparisonsOnly(s) && lanes == 2
    ensures var x, tabs, after := FieldCtx(s.c, s.m, s.t, s.shift), Tables(s.c, s.m, s.t, lanes), Final(s, lanes);
      && CtxOk(x) && Agree(x, after, after[1].wires)
      && forall w: Wire :: w < |s.t.gates| ==> HidesItem(x, tabs, [ValuesOf(s)], after[1].wires, Item(0, w))
  {
    hide FieldModulus, WellFormed, LtzInner, TableOf, LevelOrdered, AllSupported, FieldOk, AllHide, Levels, ValuesOf,
         Prepared, GoodBits, Run, FieldBits, StartViews, StartWires, KeysFor, Held, HidesItem, Flatten, ByLevel;
    FieldAboveTwo(s.c, s.m, s.t);
    SessionReady(s, lanes);
    var x, k, inner, tabs, ls := FieldCtx(s.c, s.m, s.t, s.shift), KeysFor(s.c, 0, s.m), LtzInner(lanes),
                                 Tables(s.c, s.m, s.t, lanes), LevelsOf(s.t);
    ReadyHeld(s, x, k, inner, tabs, ls);
    SessionStart(s, lanes);
    SessionPrepared(s, lanes);
    SessionBits(s, lanes);
    TaskRunOk(s.c, s.m, 0, s.t);
    var bits := FieldBits(x, k, inner, tabs, ls, s.noise);
    var views := StartViews(s.c, s.m, s.t, tabs, FirstLevel(ls), s.inputs);
    RunMasks(x, k.a, tabs, [ValuesOf(s)], bits, ls, |ls|, views, StartWires(s, lanes));
    assert ls[..|ls|] == ls;
    forall w: Wire | w < |s.t.gates| ensures HidesItem(x, tabs, [ValuesOf(s)], Final(s, lanes)[1].wires, Item(0, w)) {
      AllHideAt(x, tabs, [ValuesOf(s)], Final(s, lanes)[1].wires, Known0(x, 1, Flatten(ls)), Item(0, w));
    }
  }

  lemma AllHideAt(x: Ctx, tabs: seq<seq<Table>>, vals: seq<seq<int>>, wires: map<Item, int>, done: iset<Item>, it: Item)
    requires CtxOk(x) && AllHide(x, tabs, vals, wires, done) && it in done
    ensures HidesItem(x, tabs, vals, wires, it)
  {
  }

  /** The residue of any session: the key times the weighted sum of the changes. */
  lemma SessionResidueIs(s: Session, lanes: nat)
    requires SessionOk(s)
    ensures var x, ls, k := FieldCtx(s.c, s.m, s.t, s.shift), LevelsOf(s.t), KeysFor(s.c, 0, s.m).a;
      && s.m > 2 && ItemsOk(x.gates, MacOrder(ls)) && 0 <= SessionResidue(s, lanes) < s.m
      && Cong(s.m, SessionResidue(s, lanes), k.key * WeightedShifts(x, MacOrder(ls), |MacOrder(ls)|, s.rho))
  {
    hide FieldModulus, WellFormed, LtzInner, TableOf, LevelOrdered, AllSupported, LaneOk, Levels, KeyShares, FieldOk,
         ValuesOf, Run, FieldBits, StartViews, StartWires, KeysFor, Held, Flatten, ByLevel, KeysOk, Residue,
         WeightedShifts, Cong, Keyed;
    FieldAboveTwo(s.c, s.m, s.t);
    SessionReady(s, lanes);
    var x, k, inner, tabs, ls := FieldCtx(s.c, s.m, s.t, s.shift), KeysFor(s.c, 0, s.m), LtzInner(lanes),
                                 Tables(s.c, s.m, s.t, lanes), LevelsOf(s.t);
    ReadyHeld(s, x, k, inner, tabs, ls);
    FieldKeyed(x, k, inner, tabs);
    SessionStart(s, lanes);
    KeySharesAre(x, k, inner, tabs);
    var views := StartViews(s.c, s.m, s.t, tabs, FirstLevel(ls), s.inputs);
    SameStart(s, lanes);
    RunResidue(x, k.a, tabs, FieldBits(x, k, inner, tabs, ls, s.noise), ls, views, StartWires(s, lanes),
               StartWires(s, lanes), s.rho);
  }

  lemma FieldKeyed(x: Ctx, k: FullKeys, inner: Inner, tabs: seq<seq<Table>>)
    requires FieldOk(x, k, inner, tabs)
    ensures Keyed(x, k.a, tabs, 1)
  {
    hide LaneOk, KeysOk, InnerOk, LevelOrdered, GoodCompare;
  }

  lemma SameStart(s: Session, lanes: nat)
    requires SessionOk(s)
    ensures SameOpened(FieldCtx(s.c, s.m, s.t, s.shift),
                       StartViews(s.c, s.m, s.t, Tables(s.c, s.m, s.t, lanes), FirstLevel(LevelsOf(s.t)), s.inputs),
                       StartWires(s, lanes))
  {
    hide FieldModulus, WellFormed, LtzInner, TableOf, AllSupported, InputWires, LevelsOf;
    FieldAboveTwo(s.c, s.m, s.t);
    var tabs, level0 := Tables(s.c, s.m, s.t, lanes), FirstLevel(LevelsOf(s.t));
    forall i | 1 <= i <= s.c.nP
      ensures InputWires(s.c, s.m, s.t, tabs, level0, s.inputs, i)
        == InputWires(s.c, s.m, s.t, tabs, level0, s.inputs, 1)
    {
      InputWiresSame(s.c, s.m, s.t, lanes, s.inputs, level0, i);
    }
  }

  /** The outputs of plain values. */
  function PlainOutputs(vs: seq<int>, outputs: seq<Wire>): seq<int>
    requires Below(outputs, |vs|)
  {
    seq(|outputs|, o requires 0 <= o < |outputs| => vs[outputs[o]])
  }

  lemma UnmaskHidden(m: nat, T: Table, vs: seq<int>, w: Wire, public: int)
    requires m > 0 && Hides(m, T, vs, w, public) && Reduced(m, vs)
    ensures Sub(m, public, OutputMask(m, T, w)) == vs[w]
  {
    var d := Delta(m, T, w);
    CongSub(m, public, vs[w] + d, d, d);
    CongMod(m, public - d);
    CongEq(m, Sub(m, public, d), vs[w]);
  }

  /** What the check does not see.  As long as nothing is added to an opening for which it takes
      a random factor, it passes and what was opened is released, whatever was added to the
      openings of comparisons and inside them. */
  lemma UncheckedChangesPass(s: Session, lanes: nat, i: nat)
    requires SessionOk(s) && 1 <= i <= s.c.nP
    requires forall it: Item :: it.w < |s.t.gates| && Draws(s.t.gates[it.w]) > 0 ==> s.shift(it) == 0
    ensures SessionResidue(s, lanes) == 0 && s.m > 0
    ensures Returned(s, lanes, i)
      == Unmasked(s.m, TableOf(s.c, s.m, s.t, lanes, 0), Final(s, lanes)[i].wires, s.t.outputs)
  {
    hide FieldModulus, WellFormed, LtzInner, TableOf, LevelOrdered, AllSupported, Levels, Delta, Cong, SessionResidue,
         KeysFor, Flatten, ByLevel, WeightedShifts, Final, OutputMask, MacOrder, LevelsOf, Draws;
    FieldAboveTwo(s.c, s.m, s.t);
    SessionResidueIs(s, lanes);
    NoShifts(FieldCtx(s.c, s.m, s.t, s.shift), MacOrder(LevelsOf(s.t)), |MacOrder(LevelsOf(s.t))|, s.rho);
    ZeroResidue(s.m, SessionResidue(s, lanes), KeysFor(s.c, 0, s.m).a.key);
  }

  /** What tampering with comparisons does.  If only openings of comparison gates are changed,
      every party returns the outputs of the circuit in which the result of each such gate is
      off by minus twice what was added; nobody notices. */
  lemma ComparisonsUnchecked(s: Session, lanes: nat, i: nat)
    requires SessionOk(s) && ComparisonsOnly(s) && lanes == 2 && 1 <= i <= s.c.nP
    ensures SessionResidue(s, lanes) == 0 && Below(s.t.outputs, |ValuesOf(s)|)
    ensures Returned(s, lanes, i) == PlainOutputs(ValuesOf(s), s.t.outputs)
  {
    hide FieldModulus, WellFormed, LtzInner, TableOf, LevelOrdered, AllSupported, Levels, Delta, Cong, SessionResidue,
         ValuesOf, KeysFor, Flatten, ByLevel, Hides, Final, OutputMask, LevelsOf, Returned, Unmasked;
    FieldAboveTwo(s.c, s.m, s.t);
    var x, tabs := FieldCtx(s.c, s.m, s.t, s.shift), Tables(s.c, s.m, s.t, lanes);
    PlainSize(s);
    UncheckedChangesPass(s, lanes, i);
    FinalHides(s, lanes);
    forall o | 0 <= o < |s.t.outputs|
      ensures Returned(s, lanes, i)[o] == PlainOutputs(ValuesOf(s), s.t.outputs)[o]
    {
      var w := s.t.outputs[o];
      assert HidesItem(x, tabs, [ValuesOf(s)], Final(s, lanes)[1].wires, Item(0, w));
      UnmaskHidden(s.m, TableOf(s.c, s.m, s.t, lanes, 0), ValuesOf(s), w, Get(Final(s, lanes)[i].wires, Item(0, w)));
    }
  }

  /** Correctness of the whole protocol: in every honest run, whatever the random streams,
      every party returns the outputs of plain evaluation. */
  lemma ProtocolCorrect(s: Session, lanes: nat, i: nat)
    requires SessionOk(s) && Honest(s) && lanes == 2 && 1 <= i <= s.c.nP
    ensures Below(s.t.outputs, |PlainOf(s)|)
    ensures Returned(s, lanes, i) == PlainOutputs(PlainOf(s), s.t.outputs)
  {
    hide SessionOk, Honest, PlainOf, ValuesOf, Returned, SessionResidue;
    HonestValues(s);
    ComparisonsUnchecked(s, lanes, i);
  }

  lemma ZeroResidue(m: nat, r: int, key: int)
    requires m > 0 && 0 <= r < m && Cong(m, r, key * 0)
    ensures r == 0
  {
    ModUnique(m, r, 0, r);
    ModUnique(m, 0, 0, 0);
    assert key * 0 == 0;
  }

  /** ... and these are the plaintext evaluator's outputs, as long as no comparison reads a
      value on which the two disagree. */
  lemma ProtocolIsEvaluate(s: Session, lanes: nat, i: nat)
    requires SessionOk(s) && Honest(s) && lanes == 2 && 1 <= i <= s.c.nP
    requires NoMisread(s.m, s.t.gates, EvalAll(s.m, s.t.gates, s.inputs))
    ensures s.m > 1 && Returned(s, lanes, i) == CircuitBuilder.Outputs(s.m, s.t.gates, s.t.outputs, s.inputs)
  {
    hide LtzInner, TableOf, LevelOrdered, Levels, SessionResidue, KeysFor, Final, LevelsOf, Returned, EvalAll, PlainAll,
         NoMisread, FieldModulus, WellFormed, AllSupported;
    FieldAboveTwo(s.c, s.m, s.t);
    ProtocolCorrect(s, lanes, i);
    PlainIsEval(s.m, s.t.gates, s.inputs);
  }

  /** Cheating.  Every opening but those of comparisons enters the check with its own random
      factors: the outputs are released if and only if the key annihilates the weighted sum of
      what was added to them; otherwise every party returns zeros. */
  lemma ReleasedIff(s: Session, lanes: nat, i: nat)
    requires SessionOk(s) && 1 <= i <= s.c.nP
    ensures var x, order, k := FieldCtx(s.c, s.m, s.t, s.shift), MacOrder(LevelsOf(s.t)), KeysFor(s.c, 0, s.m).a;
      && s.m > 0 && ItemsOk(x.gates, order)
      && (SessionResidue(s, lanes) == 0 <==> Cong(s.m, k.key * WeightedShifts(x, order, |order|, s.rho), 0))
      && (SessionResidue(s, lanes) != 0 ==> forall o :: 0 <= o < |s.t.outputs| ==> Returned(s, lanes, i)[o] == 0)
  {
    hide LtzInner, TableOf, LevelOrdered, Levels, SessionResidue, KeysFor, Final, LevelsOf, FieldModulus, WellFormed,
         AllSupported, WeightedShifts, MacOrder;
    FieldAboveTwo(s.c, s.m, s.t);
    SessionResidueIs(s, lanes);
    ModUnique(s.m, SessionResidue(s, lanes), 0, SessionResidue(s, lanes));
    ModUnique(s.m, 0, 0, 0);
  }

  // ---- a wrong output that is released -----------------------------------------------------------

  /** One input, owned by party 1, compared with zero. */
  const ONE_TEST := Task([Inp, Unary(KLtz, 0)], map[0 := 1], [1])

  /** e is added to the comparison's opening. */
  function Tampered(c: Config, m: nat, v: int, noise: nat -> Noise, rho: nat -> int, e: int): Session {
    Session(c, m, ONE_TEST, map[0 := v], noise, rho, (it: Item) => if it.w == 1 then e else 0)
  }

  lemma TestValue(c: Config, m: nat, v: int, noise: nat -> Noise, rho: nat -> int, e: int)
    requires c.nP > 0 && FieldModulus(m)
    ensures var s := Tampered(c, m, v, noise, rho, e);
      SessionOk(s) && ValuesOf(s)[1] == ComparedVal(m, v % m, e) && PlainOf(s)[1] == HalfBit(m, v % m)
  {
    hide FieldModulus, ComparedVal, HalfBit;
    var s := Tampered(c, m, v, noise, rho, e);
    TestOk(c, m, s);
    assert s.t.gates[..1] == [Inp] && s.t.gates[..1][..0] == [];
    TestSteps(m, s.t.gates, s.inputs, ChangesOf(s.shift), v);
    TestSteps(m, s.t.gates, s.inputs, _ => 0, v);
    ComparedAsIs(m, v % m);
  }

  lemma TestOk(c: Config, m: nat, s: Session)
    requires c.nP > 0 && FieldModulus(m) && s.c == c && s.m == m && s.t == ONE_TEST && 0 in s.inputs
    ensures SessionOk(s) && m > 2
  {
  }

  lemma TestSteps(m: nat, gates: seq<Gate>, x: map<Wire, int>, e: Changes, v: int)
    requires m > 2 && gates == [Inp, Unary(KLtz, 0)] && x == map[0 := v] && WellFormed(gates)
    ensures ChangedAll(m, gates, x, e)[1] == ComparedVal(m, v % m, e(1))
  {
    hide ComparedVal;
    ChangedAt(m, gates, x, e, 0);
    ChangedAt(m, gates, x, e, 1);
  }

  lemma TwiceIsZero(m: nat, e: int)
    requires m > 2 && m % 2 == 1
    ensures Cong(m, 2 * e, 0) <==> Cong(m, e, 0)
  {
    if Cong(m, e, 0) {
      CongScale(m, e, 0, 2);
    }
    if Cong(m, 2 * e, 0) {
      var k := CongWitness(m, 2 * e, 0);
      var h := m / 2;
      assert m == 2 * h + 1;
      var j := e - k * h;
      assert k * m == 2 * (k * h) + k;
      assert 2 * j * m == 2 * (j * m);
      CongIntro(m, e, 0, j);
    }
  }

  /** The result is wrong unless a multiple of the modulus was added. */
  lemma OffBy(m: nat, v: int, e: int)
    requires FieldModulus(m)
    ensures ComparedVal(m, v, e) == HalfBit(m, v) <==> Cong(m, e, 0)
  {
    ModulusIs(m);
    hide FieldModulus, ComparedVal, HalfBit, Cong;
    var b, r := HalfBit(m, v), ComparedVal(m, v, e);
    HalfBitSmall(m, v);
    ComparedCong(m, v, e);
    TwiceIsZero(m, e);
    if r == b {
      CongSub(m, b, b, r, b - 2 * e);
      CongSub(m, 0, 2 * e, 2 * e, 2 * e);
    }
    if Cong(m, 2 * e, 0) {
      SelfCong(m, b);
      CongSub(m, b, b, 2 * e, 0);
      CongTrans(m, r, b - 2 * e, b);
      CongEq(m, r, b);
    }
  }

  lemma ModulusIs(m: nat)
    requires FieldModulus(m)
    ensures m > 2 && m % 2 == 1
  {
  }

  lemma HalfBitSmall(m: nat, v: int)
    requires m > 2
    ensures 0 <= HalfBit(m, v) < m && Cong(m, HalfBit(m, v), HalfBit(m, v))
  {
  }

  /** For every input, every stream and every e that is not a multiple of the modulus, adding e
      to this one opening makes every party return a wrong result, and the check passes. */
  lemma WrongOutput(c: Config, m: nat, v: int, noise: nat -> Noise, rho: nat -> int, e: int, lanes: nat, i: nat)
    requires c.nP > 0 && FieldModulus(m) && lanes == 2 && 1 <= i <= c.nP && forall l: nat :: Clean(noise(l))
    ensures var s := Tampered(c, m, v, noise, rho, e);
      && SessionOk(s) && SessionResidue(s, lanes) == 0
      && Returned(s, lanes, i) == [ComparedVal(m, v % m, e)]
         && PlainOutputs(PlainOf(s), s.t.outputs) == [HalfBit(m, v % m)]
      && (ComparedVal(m, v % m, e) == HalfBit(m, v % m) <==> Cong(m, e, 0))
  {
    hide FieldModulus, ComparedVal, HalfBit, SessionResidue, Returned, ValuesOf, PlainOf, Cong;
    var s := Tampered(c, m, v, noise, rho, e);
    TestValue(c, m, v, noise, rho, e);
    ComparisonsUnchecked(s, lanes, i);
    OffBy(m, v % m, e);
  }
}
