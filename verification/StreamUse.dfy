/** What an offline pass takes from the streams, at the dealer and at every party: which
    positions each share is made of, that none is used twice, and where the cursors end. */
module StreamUse {
  import opened Counting
  import opened Circuits
  import opened Sharing
  import opened Dealing
  import opened Offline
  import opened Preprocess
  import opened LtzProtocol
  import opened EndToEnd
  import opened OfflineCells

  // ---- apart --------------------------------------------------------------------------------------

  /** What one use takes comes before what any later one takes. */
  lemma {:induction false} UsesApart(nP: nat, i: nat, slots: seq<Slot>, j: nat, k: nat)
    requires j < k <= |slots|
    ensures Start(nP, i, slots, j) + Use(nP, i, slots[j]) <= Start(nP, i, slots, k)
  {
    hide Use;
    if j < k - 1 {
      UsesApart(nP, i, slots, j, k - 1);
    }
  }

  lemma {:induction false} KeysFirst(nP: nat, i: nat, slots: seq<Slot>, j: nat)
    requires j <= |slots| && i > 0
    ensures Start(nP, i, slots, j) >= 2
  {
    if j > 0 {
      KeysFirst(nP, i, slots, j - 1);
    }
  }

  /** No position of a party's stream is part of two sharings, and none of those of the keys,
      which come first, is part of any. */
  lemma CellsApart(nP: nat, i: nat, slots: seq<Slot>, j: nat, k: nat)
    requires j < k < |slots| && Takes(nP, i, slots[j]) && Takes(nP, i, slots[k])
    ensures 2 <= Cell(nP, i, slots, j) && Cell(nP, i, slots, j) + 2 <= Cell(nP, i, slots, k)
  {
    hide Start;
    KeysFirst(nP, i, slots, j);
    UsesApart(nP, i, slots, j, k);
  }

  /** An input mask is drawn at a position that no sharing's value or tag is drawn at, and no
      other input mask. */
  lemma MasksApart(nP: nat, i: nat, slots: seq<Slot>, j: nat, k: nat)
    requires j < |slots| && k < |slots| && 0 < i <= nP && slots[j] == InputOf(i)
    ensures Start(nP, i, slots, j) >= 2
    ensures Takes(nP, i, slots[k]) ==>
      Start(nP, i, slots, j) != Cell(nP, i, slots, k) && Start(nP, i, slots, j) != Cell(nP, i, slots, k) + 1
    ensures j != k && slots[k] == InputOf(i) ==> Start(nP, i, slots, j) != Start(nP, i, slots, k)
  {
    hide Start;
    KeysFirst(nP, i, slots, j);
    if j < k {
      UsesApart(nP, i, slots, j, k);
    } else if k < j {
      UsesApart(nP, i, slots, k, j);
    }
  }

  /** Public pads are apart, too. */
  lemma PadsApart(nP: nat, slots: seq<Slot>, j: nat, k: nat)
    requires j < k < |slots| && slots[j].Pad? && slots[k].Pad?
    ensures Start(nP, 0, slots, j) < Start(nP, 0, slots, k)
  {
    hide Start;
    UsesApart(nP, 0, slots, j, k);
  }

  /** No place of a list serves two sharings. */
  lemma {:induction false} RanksApart(slots: seq<Slot>, j: nat, k: nat)
    requires j < k <= |slots|
    ensures Rank(slots, j, ListOf(slots[j])) < Rank(slots, k, ListOf(slots[j]))
  {
    if j < k - 1 {
      RanksApart(slots, j, k - 1);
    }
  }

  // ---- the numbers ------------------------------------------------------------------------------------

  /** The numbers of one gate's sharings come before those of any later gate. */
  lemma {:induction false} PlanApart(owners: map<Wire, nat>, inner: Inner, gates: seq<Gate>, order: seq<Wire>, t: nat,
                                     u: nat)
    requires forall i :: 0 <= i < |inner.order| ==> inner.order[i] < |inner.gates|
    requires t < u <= |order| && forall i :: 0 <= i < |order| ==> order[i] < |gates|
    ensures |Plan(owners, inner, gates, order, t)| + |SlotsOf(owners, inner, order[t], gates[order[t]])|
         <= |Plan(owners, inner, gates, order, u)|
  {
    hide SlotsOf;
    if t < u - 1 {
      PlanApart(owners, inner, gates, order, t, u - 1);
    }
  }

  /** A gate has as many sharings as its operation needs. */
  lemma SharingsOf(owners: map<Wire, nat>, inner: Inner, w: Wire, g: Gate)
    requires forall i :: 0 <= i < |inner.order| ==> inner.order[i] < |inner.gates|
    ensures g.Inp? ==> |SlotsOf(owners, inner, w, g)| == 1
    ensures g.Lin? || g.ConstAdd? || g.ConstMul? ==> |SlotsOf(owners, inner, w, g)| == 0
    ensures g.Mul2? || g.Simd? ==> |SlotsOf(owners, inner, w, g)| == 2
    ensures g.Mul3? ==> |SlotsOf(owners, inner, w, g)| == 5
    ensures g.Mul4? ==> |SlotsOf(owners, inner, w, g)| == 12
  {
  }

  // ---- where the cursors end ------------------------------------------------------------------------

  /** The sharings among the first n uses that take a part from stream i, the input masks that
      party i draws, and the public pads. */
  ghost function Taken(nP: nat, i: nat, slots: seq<Slot>, n: nat): set<nat>
    requires n <= |slots|
  {
    set j: nat | j < n && Takes(nP, i, slots[j])
  }

  ghost function MasksOf(i: nat, slots: seq<Slot>, n: nat): set<nat>
    requires n <= |slots|
  {
    set j: nat | j < n && slots[j] == InputOf(i)
  }

  ghost function Pads(slots: seq<Slot>, n: nat): set<nat>
    requires n <= |slots|
  {
    set j: nat | j < n && slots[j].Pad?
  }

  lemma SetsNext(nP: nat, i: nat, slots: seq<Slot>, n: nat)
    requires n < |slots|
    ensures |Taken(nP, i, slots, n + 1)| == |Taken(nP, i, slots, n)| + if Takes(nP, i, slots[n]) then 1 else 0
    ensures |MasksOf(i, slots, n + 1)| == |MasksOf(i, slots, n)| + if slots[n] == InputOf(i) then 1 else 0
    ensures |Pads(slots, n + 1)| == |Pads(slots, n)| + if slots[n].Pad? then 1 else 0
  {
    hide Takes;
    CountNext(Taken(nP, i, slots, n), Taken(nP, i, slots, n + 1), n, Takes(nP, i, slots[n]));
    CountNext(MasksOf(i, slots, n), MasksOf(i, slots, n + 1), n, slots[n] == InputOf(i));
    CountNext(Pads(slots, n), Pads(slots, n + 1), n, slots[n].Pad?);
  }

  /** A cursor stands at the keys' two positions, two for each sharing with a part from the
      stream, and one for each input mask its party draws; the public stream's, at the pads. */
  lemma {:induction false} CursorIs(nP: nat, i: nat, slots: seq<Slot>, n: nat)
    requires n <= |slots| && i <= nP
    ensures Start(nP, i, slots, n)
         == if i == 0 then |Pads(slots, n)| else 2 + 2 * |Taken(nP, i, slots, n)| + |MasksOf(i, slots, n)|
  {
    if n == 0 {
      assert Taken(nP, i, slots, 0) == {} && MasksOf(i, slots, 0) == {} && Pads(slots, 0) == {};
    } else {
      hide Taken, MasksOf, Pads;
      CursorIs(nP, i, slots, n - 1);
      SetsNext(nP, i, slots, n - 1);
    }
  }

  /** How many of the first n uses are input masks of party i. */
  function OwnedAmong(i: nat, slots: seq<Slot>, n: nat): nat
    requires n <= |slots|
  {
    if n == 0 then 0 else OwnedAmong(i, slots, n - 1) + if slots[n - 1] == InputOf(i) then 1 else 0
  }

  lemma {:induction false} OwnedAmongIs(i: nat, slots: seq<Slot>, n: nat)
    requires n <= |slots|
    ensures |MasksOf(i, slots, n)| == OwnedAmong(i, slots, n)
  {
    if n == 0 {
      assert MasksOf(i, slots, 0) == {};
    } else {
      OwnedAmongIs(i, slots, n - 1);
      SetsNext(0, i, slots, n - 1);
    }
  }

  lemma {:induction false} OwnedJoined(i: nat, a: seq<Slot>, b: seq<Slot>, n: nat)
    requires n <= |b|
    ensures OwnedAmong(i, a + b, |a| + n) == OwnedAmong(i, a, |a|) + OwnedAmong(i, b, n)
  {
    if n > 0 {
      OwnedJoined(i, a, b, n - 1);
    } else {
      OwnedSame(i, a, b, |a|);
    }
  }

  lemma {:induction false} OwnedSame(i: nat, a: seq<Slot>, b: seq<Slot>, n: nat)
    requires n <= |a|
    ensures OwnedAmong(i, a + b, n) == OwnedAmong(i, a, n)
  {
    if n > 0 {
      OwnedSame(i, a, b, n - 1);
    }
  }

  lemma {:induction false} OwnedNone(i: nat, slots: seq<Slot>, n: nat)
    requires n <= |slots| && forall j :: 0 <= j < |slots| ==> !slots[j].InputOf?
    ensures OwnedAmong(i, slots, n) == 0
  {
    if n > 0 {
      OwnedNone(i, slots, n - 1);
    }
  }

  /** The inputs of party i among the first n gates of the traversal. */
  ghost function InputsOf(owners: map<Wire, nat>, gates: seq<Gate>, order: seq<Wire>, n: nat, i: nat): set<nat>
    requires n <= |order| && forall j :: 0 <= j < |order| ==> order[j] < |gates|
  {
    set t: nat | t < n && gates[order[t]].Inp? && order[t] in owners && owners[order[t]] == i
  }

  lemma InputsNext(owners: map<Wire, nat>, gates: seq<Gate>, order: seq<Wire>, n: nat, i: nat)
    requires n < |order| && forall j :: 0 <= j < |order| ==> order[j] < |gates|
    ensures |InputsOf(owners, gates, order, n + 1, i)| == |InputsOf(owners, gates, order, n, i)|
      + if gates[order[n]].Inp? && order[n] in owners && owners[order[n]] == i then 1 else 0
  {
    CountNext(InputsOf(owners, gates, order, n, i), InputsOf(owners, gates, order, n + 1, i), n,
            gates[order[n]].Inp? && order[n] in owners && owners[order[n]] == i);
  }

  lemma InputsNone(owners: map<Wire, nat>, gates: seq<Gate>, order: seq<Wire>, i: nat)
    requires forall j :: 0 <= j < |order| ==> order[j] < |gates|
    ensures |InputsOf(owners, gates, order, 0, i)| == 0 && OwnedAmong(i, [], 0) == 0
  {
  }

  lemma CompareOwnsNone(inner: Inner)
    requires forall i :: 0 <= i < |inner.order| ==> inner.order[i] < |inner.gates|
    ensures forall j :: 0 <= j < |CompareSlots(inner)| ==> !CompareSlots(inner)[j].InputOf?
  {
    hide BasicPlan;
    BasicPlanRing(true, map[], inner.gates, inner.order, |inner.order|);
    var plan := BasicPlan(true, map[], inner.gates, inner.order, |inner.order|);
    assert forall j :: 0 <= j < |plan| ==> OfRing(true, plan[j]);
  }

  /** Party i draws one input mask for each input it owns. */
  lemma {:induction false} OwnedInputs(owners: map<Wire, nat>, inner: Inner, gates: seq<Gate>, order: seq<Wire>, n: nat,
                                       i: nat)
    requires forall j :: 0 <= j < |inner.order| ==> inner.order[j] < |inner.gates|
    requires n <= |order| && forall j :: 0 <= j < |order| ==> order[j] < |gates|
    requires i > 0
    ensures var plan := Plan(owners, inner, gates, order, n);
      OwnedAmong(i, plan, |plan|) == |InputsOf(owners, gates, order, n, i)|
  {
    hide OwnedAmong, SlotsOf, InputsOf;
    if n == 0 {
      InputsNone(owners, gates, order, i);
    } else {
      OwnedInputs(owners, inner, gates, order, n - 1, i);
      var w, g := order[n - 1], gates[order[n - 1]];
      var before, more := Plan(owners, inner, gates, order, n - 1), SlotsOf(owners, inner, w, g);
      OwnedJoined(i, before, more, |more|);
      GateOwns(owners, inner, w, g, i);
      InputsNext(owners, gates, order, n - 1, i);
    }
  }

  lemma GateOwns(owners: map<Wire, nat>, inner: Inner, w: Wire, g: Gate, i: nat)
    requires forall j :: 0 <= j < |inner.order| ==> inner.order[j] < |inner.gates|
    requires i > 0
    ensures var more := SlotsOf(owners, inner, w, g);
      OwnedAmong(i, more, |more|) == if g.Inp? && w in owners && owners[w] == i then 1 else 0
  {
    var more := SlotsOf(owners, inner, w, g);
    if g.Unary? {
      hide CompareSlots;
      CompareOwnsNone(inner);
      OwnedNone(i, more, |more|);
    } else if g.Inp? {
      assert OwnedAmong(i, more, 0) == 0 && OwnedAmong(i, more, 1) == if more[0] == InputOf(i) then 1 else 0;
    } else {
      OwnedNone(i, more, |more|);
    }
  }

  // ---- at a party ---------------------------------------------------------------------------------------

  lemma PlacedParty(c: Config, m: nat, slots: seq<Slot>, j: nat, i: nat, d: Share, p: Share, ch: Chan)
    requires m > 0 && Placed(c, 0, m, slots, j, d, ch) && SameShare(c, i, d, p) && 1 <= i <= c.nP
    ensures Placed(c, i, m, slots, j, p, ch)
  {
    hide PlacedAt;
    assert PlacedAt(c, m, slots, j, i, PartAt(c, 0, d, i), ch);
  }

  lemma EntryParty(c: Config, m: nat, boolean: bool, slots: seq<Slot>, base: nat, g: Gate, i: nat, d: Pre, p: Pre,
                   ch: Chan)
    requires m > 0 && BasicEntry(c, 0, m, boolean, slots, base, g, d, ch) && SameBasic(c, i, d, p) && 1 <= i <= c.nP
    ensures BasicEntry(c, i, m, boolean, slots, base, g, p, ch)
  {
    hide Placed, SameShare, Start;
    if g.Inp? {
      if !boolean {
        PlacedParty(c, m, slots, base, i, d.mask, p.mask, ch);
      }
    } else if Interactive(g) {
      PlacedParty(c, m, slots, base, i, d.mask, p.mask, ch);
      forall q | 0 <= q < |p.prods| ensures Placed(c, i, m, slots, base + 1 + q, p.prods[q], ch) {
        PlacedParty(c, m, slots, base + 1 + q, i, d.prods[q], p.prods[q], ch);
      }
    }
  }

  lemma TableParty(c: Config, m: nat, boolean: bool, owners: map<Wire, nat>, slots: seq<Slot>, base: nat,
                   gates: seq<Gate>, order: seq<Wire>, n: nat, i: nat, d: Table, p: Table, ch: Chan)
    requires m > 0 && n <= |order| && forall j :: 0 <= j < |order| ==> order[j] < |gates|
    requires BasicTable(c, 0, m, boolean, owners, slots, base, gates, order, n, d, ch) && SameTable(c, i, d, p)
    requires 1 <= i <= c.nP
    ensures BasicTable(c, i, m, boolean, owners, slots, base, gates, order, n, p, ch)
  {
    hide BasicEntry, SameBasic, BasicPlan;
    forall t | 0 <= t < n ensures EntryAt(c, i, m, boolean, owners, slots, base, gates, order, t, p, ch) {
      assert EntryAt(c, 0, m, boolean, owners, slots, base, gates, order, t, d, ch);
      EntryParty(c, m, boolean, slots, base + |BasicPlan(boolean, owners, gates, order, t)|, gates[order[t]], i,
                 d[order[t]], p[order[t]], ch);
    }
  }

  lemma BitsParty(c: Config, slots: seq<Slot>, base: nat, inner: Inner, i: nat, d: Table, p: Table, b: Chan)
    requires forall j :: 0 <= j < |inner.order| ==> inner.order[j] < |inner.gates|
    requires BitsPlaced(c, 0, slots, base, inner, d, b) && SameTable(c, i, d, p) && 1 <= i <= c.nP
    ensures BitsPlaced(c, i, slots, base, inner, p, b)
  {
    hide Placed, SeenInputs, SameShare;
    forall u | 0 <= u < |inner.order| && inner.gates[inner.order[u]].Inp?
      ensures inner.order[u] in p
      ensures Placed(c, i, 2, slots, base + SeenInputs(inner.gates, inner.order[..u]) % INPUT_BITS,
                     p[inner.order[u]].mask, b)
    {
      var w := inner.order[u];
      assert SameBasic(c, i, d[w], p[w]);
      PlacedParty(c, 2, slots, base + SeenInputs(inner.gates, inner.order[..u]) % INPUT_BITS, i, d[w].mask, p[w].mask,
                  b);
    }
  }

  lemma CompareParty(c: Config, m: nat, slots: seq<Slot>, base: nat, inner: Inner, i: nat, d: Pre, p: Pre, a: Chan,
                     b: Chan)
    requires m > 0 && forall j :: 0 <= j < |inner.order| ==> inner.order[j] < |inner.gates|
    requires CompareEntry(c, 0, m, slots, base, inner, d, a, b) && SameCompare(c, i, d, p) && 1 <= i <= c.nP
    ensures CompareEntry(c, i, m, slots, base, inner, p, a, b)
  {
    hide Placed, BitsPlaced, BasicTable, SameShare, SameTable, BasicPlan, Start;
    var last := base + 1 + INPUT_BITS + |BasicPlan(true, map[], inner.gates, inner.order, |inner.order|)|;
    BitsParty(c, slots, base + 1, inner, i, d.inner, p.inner, b);
    TableParty(c, 2, true, map[], slots, base + 1 + INPUT_BITS, inner.gates, inner.order, |inner.order|, i, d.inner,
               p.inner,
               b);
    PlacedParty(c, m, slots, last, i, d.maskB, p.maskB, a);
    PlacedParty(c, m, slots, last + 1, i, d.maskW, p.maskW, a);
  }

  lemma CellsParty(c: Config, m: nat, owners: map<Wire, nat>, inner: Inner, slots: seq<Slot>, gates: seq<Gate>,
                   order: seq<Wire>, n: nat, i: nat, d: Table, p: Table, a: Chan, b: Chan)
    requires m > 0 && forall j :: 0 <= j < |inner.order| ==> inner.order[j] < |inner.gates|
    requires n <= |order| && forall j :: 0 <= j < |order| ==> order[j] < |gates|
    requires AllCells(c, 0, m, owners, inner, slots, gates, order, n, d, a, b) && SameTables(c, i, d, p)
      && 1 <= i <= c.nP
    ensures AllCells(c, i, m, owners, inner, slots, gates, order, n, p, a, b)
  {
    hide BasicEntry, CompareEntry, SameBasic, SameCompare, Plan;
    forall t | 0 <= t < n ensures CellsOf(c, i, m, owners, inner, slots, gates, order, t, p, a, b) {
      assert CellsOf(c, 0, m, owners, inner, slots, gates, order, t, d, a, b);
      var w, base := order[t], |Plan(owners, inner, gates, order, t)|;
      if gates[w].Unary? {
        assert SameCompare(c, i, d[w], p[w]);
        CompareParty(c, m, slots, base, inner, i, d[w], p[w], a, b);
      } else {
        assert SameBasic(c, i, d[w], p[w]);
        EntryParty(c, m, false, slots, base, gates[w], i, d[w], p[w], a);
      }
    }
  }

  // ---- the results ----------------------------------------------------------------------------------------

  function OrderOf(t: Task): (order: seq<Wire>)
    requires WellFormed(t.gates)
  {
    Flatten(LevelsOf(t))
  }

  /** What the plan of a task's pass needs. */
  lemma PlanFits(c: Config, m: nat, t: Task, lanes: nat)
    requires TaskOk(c, m, t)
    ensures forall j :: 0 <= j < |LtzInner(lanes).order| ==> LtzInner(lanes).order[j] < |LtzInner(lanes).gates|
    ensures forall j :: 0 <= j < |OrderOf(t)| ==> OrderOf(t)[j] < |t.gates|
  {
    hide LtzInner, InnerOk, LevelOrdered, WellFormed, FieldModulus, AllSupported, LevelsOf, RunOk, Flatten;
    InnerFits(lanes);
    InnerBelow(LtzInner(lanes));
    TaskRunOk(c, m, 0, t);
    RunBelow(c, t.gates, Inputs.Owned(t.owners), OrderOf(t));
  }

  /** All uses of the streams in a task's offline pass. */
  function PlanOf(c: Config, m: nat, t: Task, lanes: nat): seq<Slot>
    requires TaskOk(c, m, t)
  {
    PlanFits(c, m, t, lanes);
    Plan(t.owners, LtzInner(lanes), t.gates, OrderOf(t), |OrderOf(t)|)
  }

  /** The streams and lists of one id after its pass. */
  function StateAfter(c: Config, m: nat, t: Task, lanes: nat, id: nat): Full
    requires TaskOk(c, m, t) && id <= c.nP
  {
    InnerFits(lanes);
    TaskRunOk(c, m, 0, t);
    TaskRunOk(c, m, id, t);
    Preprocessing(c, id, m, LtzInner(lanes), Inputs.Owned(t.owners), t.gates, OrderOf(t)).1
  }

  /** The key shares of both rings are the first two elements of each party's stream. */
  lemma KeyCells(c: Config, m: nat, i: nat)
    requires m > 0 && 1 <= i <= c.nP
    ensures |KeysFor(c, 0, m).a.sh| == |KeysFor(c, 0, m).b.sh| == c.nP + 1
    ensures KeysFor(c, 0, m).a.sh[i] == KeysFor(c, i, m).a.key == c.tape(i, 0) % m
    ensures KeysFor(c, 0, m).b.sh[i] == KeysFor(c, i, m).b.key == c.tape(i, 1) % 2
  {
  }

  lemma StartPlaced(c: Config)
    ensures FullAt(c, [], Full(StartCur(c, 0), EMPTY, EMPTY))
  {
  }

  lemma DealerPlaced(c: Config, m: nat, t: Task, lanes: nat)
    requires TaskOk(c, m, t)
    ensures forall j :: 0 <= j < |LtzInner(lanes).order| ==> LtzInner(lanes).order[j] < |LtzInner(lanes).gates|
    ensures forall j :: 0 <= j < |OrderOf(t)| ==> OrderOf(t)[j] < |t.gates|
    ensures var st, plan := StateAfter(c, m, t, lanes, 0), PlanOf(c, m, t, lanes);
      && m > 0 && FullAt(c, plan, st)
      && AllCells(c, 0, m, t.owners, LtzInner(lanes), plan, t.gates, OrderOf(t), |OrderOf(t)|,
                  TableOf(c, m, t, lanes, 0),
                  st.a, st.b)
  {
    hide RunFull, AllSupported, InnerOk, StartCur, LtzInner, LevelOrdered, WellFormed, FieldModulus, RunOk, FullAt,
         AllCells, OrderOf, Plan, KeysFor;
    FieldAboveTwo(c, m, t);
    InnerFits(lanes);
    TaskRunOk(c, m, 0, t);
    PlanFits(c, m, t, lanes);
    var st := Full(StartCur(c, 0), EMPTY, EMPTY);
    KeysFullOk(c, m, 0, st);
    StartPlaced(c);
    OrderSame(t);
    RunFullPlaced(c, m, KeysFor(c, 0, m), t.owners, LtzInner(lanes), t.gates, OrderOf(t), |OrderOf(t)|, st);
  }

  lemma OrderSame(t: Task)
    requires WellFormed(t.gates)
    ensures OrderOf(t) == Flatten(LevelsOf(t))
  {
  }

  /** A party ends in step with the dealer. */
  lemma StatesInStep(c: Config, m: nat, t: Task, lanes: nat, i: nat)
    requires TaskOk(c, m, t) && 1 <= i <= c.nP
    ensures var d, p := StateAfter(c, m, t, lanes, 0), StateAfter(c, m, t, lanes, i);
      FullInStep(c, d.a, d.b, i, d, p)
  {
    hide RunFull, AllSupported, RunOk, InnerOk, KeysFor, StartCur, SameTables, FullSent, LtzInner, OrderOf,
         LevelOrdered, WellFormed, FieldModulus, FullInStep, FullKeyOf;
    FieldAboveTwo(c, m, t);
    InnerFits(lanes);
    OrderSame(t);
    TaskRunOk(c, m, 0, t);
    TaskRunOk(c, m, i, t);
    var inner, inp, order := LtzInner(lanes), Inputs.Owned(t.owners), OrderOf(t);
    var kd, kp := KeysFor(c, 0, m), KeysFor(c, i, m);
    var d := Full(StartCur(c, 0), EMPTY, EMPTY);
    var lists := StateAfter(c, m, t, lanes, 0);
    var p := Full(StartCur(c, i), if i == c.nP then Received(lists.a) else EMPTY,
                  if i == c.nP then Received(lists.b) else EMPTY);
    KeysFullOk(c, m, 0, d);
    KeysFullOk(c, m, i, p);
    StartInStep(c, m, i, lists);
    assert lists == RunFull(c, 0, m, kd, inner, inp, t.gates, order, |order|, d).1;
    SentAllLists(lists);
    RunFullInStep(c, m, lists.a, lists.b, i, kd, kp, inner, inp, t.gates, order, |order|, d, p);
  }

  /** Every share in its place, at every id: the sharings of a gate are numbered from where the
      gates before it end, and each is made of the positions of its own number in the
      parties' streams, save what the last party finds on the dealer's lists. */
  lemma SharesInPlace(c: Config, m: nat, t: Task, lanes: nat, id: nat)
    requires TaskOk(c, m, t) && id <= c.nP
    ensures forall j :: 0 <= j < |LtzInner(lanes).order| ==> LtzInner(lanes).order[j] < |LtzInner(lanes).gates|
    ensures forall j :: 0 <= j < |OrderOf(t)| ==> OrderOf(t)[j] < |t.gates|
    ensures var st, plan := StateAfter(c, m, t, lanes, 0), PlanOf(c, m, t, lanes);
      && m > 0
      && AllCells(c, id, m, t.owners, LtzInner(lanes), plan, t.gates, OrderOf(t), |OrderOf(t)|,
                  TableOf(c, m, t, lanes, id),
                  st.a, st.b)
  {
    hide AllCells, TableOf, LtzInner, OrderOf, PlanOf, StateAfter, SameTables, WellFormed, FieldModulus, AllSupported;
    DealerPlaced(c, m, t, lanes);
    if id > 0 {
      TablesInStep(c, m, t, lanes, id);
      CellsParty(c, m, t.owners, LtzInner(lanes), PlanOf(c, m, t, lanes), t.gates, OrderOf(t), |OrderOf(t)|, id,
                 TableOf(c, m, t, lanes, 0), TableOf(c, m, t, lanes, id), StateAfter(c, m, t, lanes, 0).a,
                 StateAfter(c, m, t, lanes, 0).b);
    }
  }

  /** Where everybody stands after the pass: on each stream of its own and on the public one an
      id has used two positions for the keys, two for each sharing with a part from the stream,
      one for each input its party owns, and one for each comparison's pad. */
  lemma CursorsEnd(c: Config, m: nat, t: Task, lanes: nat, id: nat, i: nat)
    requires TaskOk(c, m, t) && id <= c.nP && i <= c.nP && (id == 0 || i == 0 || i == id)
    ensures forall j :: 0 <= j < |OrderOf(t)| ==> OrderOf(t)[j] < |t.gates|
    ensures var cur, plan := StateAfter(c, m, t, lanes, id).cur, PlanOf(c, m, t, lanes);
      && |cur| == c.nP + 1
      && (i == 0 ==> cur[i] == |Pads(plan, |plan|)|)
      && (i > 0 ==> cur[i] == 2 + 2 * |Taken(c.nP, i, plan, |plan|)|
                              + |InputsOf(t.owners, t.gates, OrderOf(t), |OrderOf(t)|, i)|)
  {
    hide LtzInner, OrderOf, StateAfter, TaskOk, Start, Taken, InputsOf, MasksOf, Pads, PlanOf, OwnedAmong;
    CursorOf(c, m, t, lanes, id, i);
    var plan := PlanOf(c, m, t, lanes);
    CursorIs(c.nP, i, plan, |plan|);
    if i > 0 {
      OwnedAmongIs(i, plan, |plan|);
      PlanOwns(c, m, t, lanes, i);
    }
  }

  lemma CursorOf(c: Config, m: nat, t: Task, lanes: nat, id: nat, i: nat)
    requires TaskOk(c, m, t) && id <= c.nP && i <= c.nP && (id == 0 || i == 0 || i == id)
    ensures forall j :: 0 <= j < |OrderOf(t)| ==> OrderOf(t)[j] < |t.gates|
    ensures var cur, plan := StateAfter(c, m, t, lanes, id).cur, PlanOf(c, m, t, lanes);
      |cur| == c.nP + 1 && cur[i] == Start(c.nP, i, plan, |plan|)
  {
    hide LtzInner, OrderOf, StateAfter, Start, PlanOf, ListsAt, AllCells, WellFormed, FieldModulus, AllSupported;
    DealerPlaced(c, m, t, lanes);
    if id > 0 {
      StatesInStep(c, m, t, lanes, id);
    }
  }

  lemma PlanOwns(c: Config, m: nat, t: Task, lanes: nat, i: nat)
    requires TaskOk(c, m, t) && i > 0
    ensures forall j :: 0 <= j < |OrderOf(t)| ==> OrderOf(t)[j] < |t.gates|
    ensures var plan := PlanOf(c, m, t, lanes);
      OwnedAmong(i, plan, |plan|) == |InputsOf(t.owners, t.gates, OrderOf(t), |OrderOf(t)|, i)|
  {
    hide LtzInner, OrderOf, InputsOf, OwnedAmong, Plan, WellFormed, FieldModulus, AllSupported;
    PlanFits(c, m, t, lanes);
    OwnedInputs(t.owners, LtzInner(lanes), t.gates, OrderOf(t), |OrderOf(t)|, i);
  }

  /** The corrections for the last party: one for each sharing of a value nobody chose, two for
      each of a known value or an input mask, in each ring; and the last party reads them all. */
  lemma ListsEnd(c: Config, m: nat, t: Task, lanes: nat)
    requires TaskOk(c, m, t)
    ensures var d, p, plan := StateAfter(c, m, t, lanes, 0), StateAfter(c, m, t, lanes, c.nP), PlanOf(c, m, t, lanes);
      && ListsAt(false, plan, d.a) && ListsAt(true, plan, d.b)
      && p.a.iSh == |d.a.sh| && p.a.iSec == |d.a.sec| && p.a.iParty == |d.a.party|
      && p.b.iSh == |d.b.sh| && p.b.iSec == |d.b.sec| && p.b.iParty == |d.b.party|
  {
    hide LtzInner, OrderOf, StateAfter, Start, Plan, AllCells, ListsAt, CursorsAt;
    DealerPlaced(c, m, t, lanes);
    StatesInStep(c, m, t, lanes, c.nP);
  }

  /** What a party other than the last holds. */
  lemma PlacedOwn(c: Config, i: nat, m: nat, slots: seq<Slot>, j: nat, s: Share, ch: Chan)
    requires m > 0 && 1 <= i < c.nP && Placed(c, i, m, slots, j, s, ch)
    ensures Takes(c.nP, i, slots[j])
    ensures var k := Cell(c.nP, i, slots, j);
      s.auth.value == c.tape(i, k) % m && s.auth.tag == c.tape(i, k + 1) % m
  {
    hide Start, Rank;
    assert PlacedAt(c, m, slots, j, i, PartAt(c, i, s, i), ch);
  }

  /** For example a product at a party other than the last: its mask and the share of the product
      of its input masks are drawn at four different positions, behind the keys. */
  lemma ProductCells(c: Config, m: nat, t: Task, lanes: nat, i: nat, n: nat) returns (k: nat, l: nat)
    requires TaskOk(c, m, t) && 1 <= i < c.nP && n < |OrderOf(t)|
    requires OrderOf(t)[n] < |t.gates| && t.gates[OrderOf(t)[n]].Mul2?
    ensures OrderOf(t)[n] in TableOf(c, m, t, lanes, i) && m > 0 && 2 <= k && k + 2 <= l
    ensures var p := TableOf(c, m, t, lanes, i)[OrderOf(t)[n]];
      && p.Product? && |p.prods| == 1
      && p.mask.auth.value == c.tape(i, k) % m && p.mask.auth.tag == c.tape(i, k + 1) % m
      && p.prods[0].auth.value == c.tape(i, l) % m && p.prods[0].auth.tag == c.tape(i, l + 1) % m
  {
    hide TableOf, LtzInner, OrderOf, StateAfter, WellFormed, FieldModulus, AllSupported, CompareEntry, Start, Plan,
         Rank;
    SharesInPlace(c, m, t, lanes, i);
    var plan, st := PlanOf(c, m, t, lanes), StateAfter(c, m, t, lanes, 0);
    assert CellsOf(c, i, m, t.owners, LtzInner(lanes), plan, t.gates, OrderOf(t), n, TableOf(c, m, t, lanes, i), st.a,
                   st.b);
    var p, j := TableOf(c, m, t, lanes, i)[OrderOf(t)[n]], |Plan(t.owners, LtzInner(lanes), t.gates, OrderOf(t), n)|;
    assert Placed(c, i, m, plan, j, p.mask, st.a) && Placed(c, i, m, plan, j + 1 + 0, p.prods[0], st.a);
    PlacedOwn(c, i, m, plan, j, p.mask, st.a);
    PlacedOwn(c, i, m, plan, j + 1, p.prods[0], st.a);
    k, l := Cell(c.nP, i, plan, j), Cell(c.nP, i, plan, j + 1);
    CellsApart(c.nP, i, plan, j, j + 1);
  }
}
