/** The check of all openings at once: every party combines, with common random factors,
    what its key share and tag shares say about the opened values; the sum of the
    combinations is zero when nothing was changed, and otherwise exactly the key times the
    combination of the changes. */
module MacCheck {
  import opened Circuits
  import opened Sharing
  import opened Dealing
  import opened Offline
  import opened Masks
  import opened Opening
  import opened Aggregation
  import opened Online
  import opened Masking
  import opened LevelSteps
  import opened ZMod

  function GetSh(qSh: map<Item, Auth>, it: Item): Auth {
    if it in qSh then qSh[it] else Auth(0, 0, 0)
  }

  function StoredValues(x: Ctx, views: seq<View>, it: Item): (s: seq<int>)
    requires |views| == x.c.nP + 1
    ensures |s| == x.c.nP && forall p :: 0 <= p < |s| ==> s[p] == GetSh(views[p + 1].qSh, it).value
  {
    seq(x.c.nP, p requires 0 <= p < x.c.nP => GetSh(views[p + 1].qSh, it).value)
  }

  function StoredTags(x: Ctx, views: seq<View>, it: Item): (s: seq<int>)
    requires |views| == x.c.nP + 1
    ensures |s| == x.c.nP && forall p :: 0 <= p < |s| ==> s[p] == GetSh(views[p + 1].qSh, it).tag
  {
    seq(x.c.nP, p requires 0 <= p < x.c.nP => GetSh(views[p + 1].qSh, it).tag)
  }

  /** The shares of an opening the parties kept: their tags match their values. */
  ghost predicate TagsFit(x: Ctx, k: Keys, views: seq<View>, it: Item)
    requires CtxOk(x) && |views| == x.c.nP + 1
  {
    Cong(x.m, Sum(StoredTags(x, views, it)), k.key * Sum(StoredValues(x, views, it)))
  }

  // ---- the shares kept by a step --------------------------------------------------------------

  lemma {:induction false} KeptShare(x: Ctx, i: nat, tab: seq<Table>, wires: map<Item, int>, bits: map<Item, int>,
                                     items: seq<Item>, n: nat, qSh: map<Item, Auth>, it: Item)
    requires CtxOk(x) && ItemsOk(x.gates, items) && n <= |items| && CanSendAll(x, tab, CommOrder(x.gates, items))
    ensures var kept := QShAfter(x, items, n, ItemShares(x, i, tab, wires, bits, CommOrder(x.gates, items)), qSh);
      if it in items[..n] && Interactive(x.gates[it.w])
      then CanSend(x, tab, it) && GetSh(kept, it) == ItemShare(x, i, tab, wires, bits, it)
      else GetSh(kept, it) == GetSh(qSh, it)
  {
    hide CommOrder, Place, Interactive, CanSend, ItemShare, WellFormed;
    if n > 0 {
      KeptShare(x, i, tab, wires, bits, items, n - 1, qSh, it);
      assert items[..n] == items[..n - 1] + [items[n - 1]];
      if Interactive(x.gates[items[n - 1].w]) {
        PlaceIsOwn(x.gates, items, n - 1);
      }
    }
  }

  /** All that matters for the tags: good tables, good keys, equal public wires.  Nothing
      is assumed about what was opened. */
  ghost predicate Keyed(x: Ctx, k: Keys, tabs: seq<seq<Table>>, lanes: nat)
    requires CtxOk(x)
  {
    && |tabs| == x.c.nP + 1 && |k.sh| == x.c.nP + 1 && KeysOk(x.m, k.sh, k.key)
    && forall l :: 0 <= l < lanes ==> LaneOk(x, k, tabs, l)
  }

  lemma HeldLeaves(x: Ctx, k: Keys, tabs: seq<seq<Table>>, wires: map<Item, int>, it: Item)
    requires CtxOk(x) && ItemHeld(x, k, tabs, it) && Basic(x.gates[it.w])
    ensures var T, g := tabs[0][it.lane], x.gates[it.w];
      && it.w in T && Known(T, Ins(g)) && (g.Simd? ==> |g.ins1| == |g.ins2|) && T[it.w].Product?
      && AllDealt(x.m, k, LeafShares(T, g, it.w), LeafSecrets(x.m, T, g, it.w))
      && InRange(ItemExpr(x.m, g, PublicInputs(g, it.lane, wires), 0), |LeafSecrets(x.m, T, g, it.w)|)
  {
    LeavesDealt(x, k, tabs, it);
    LeavesSame(x, k, tabs, it, 1);
    hide AllDealt, ItemHeld, Interactive, Basic, LeafShares, LeafSecrets, InRange, ItemExpr, WellFormed, SameShare,
         LaneOk;
    ExprInRange(x, tabs[1], it, PublicInputs(x.gates[it.w], it.lane, wires), 0);
  }

  lemma JointFits(c: Config, m: nat, k: Keys, e: Expr, d: seq<Share>, p: seq<seq<Share>>, ss: seq<int>,
                  vals: seq<int>, tags: seq<int>)
    requires m > 0 && |k.sh| == |p| == c.nP + 1 && c.nP > 0 && KeysOk(m, k.sh, k.key)
    requires AllDealt(m, k, d, ss) && InRange(e, |ss|)
    requires forall i :: 1 <= i <= c.nP ==> SameShares(c, i, d, p[i])
    requires |vals| == |tags| == c.nP
    requires forall i :: 1 <= i <= c.nP ==> InRange(e, |p[i]|) && vals[i - 1] == Eval(m, e, Auths(p[i]), i).value
    requires forall i :: 1 <= i <= c.nP ==> InRange(e, |p[i]|) && tags[i - 1] == Eval(m, e, Auths(p[i]), i).tag
    ensures Cong(m, Sum(tags), k.key * Sum(vals))
  {
    hide Cong, AllDealt, SameShares, Secret, InRange, Eval, KeysOk, Sum;
    JointOpen(c, m, k, e, d, p, ss, vals);
    JointTags(c, m, k, e, d, p, ss, tags);
    CongScale(m, Sum(vals), Secret(e, ss), k.key);
    CongSym(m, k.key * Sum(vals), k.key * Secret(e, ss));
    CongTrans(m, Sum(tags), k.key * Secret(e, ss), k.key * Sum(vals));
  }

  lemma CongSym(m: nat, a: int, b: int)
    requires m > 0 && Cong(m, a, b)
    ensures Cong(m, b, a)
  {
  }

  /** Whatever was opened before, the shares kept for a gate are authenticated. */
  lemma StepTags(x: Ctx, k: Keys, tabs: seq<seq<Table>>, lanes: nat, views: seq<View>, wires: map<Item, int>,
                 bits: map<Item, int>, items: seq<Item>, it: Item)
    requires CtxOk(x) && Keyed(x, k, tabs, lanes) && JointOk(x, tabs, items) && Agree(x, views, wires)
    requires it in items && it.lane < lanes && it.w < |x.gates|
    requires Interactive(x.gates[it.w]) && Basic(x.gates[it.w])
    ensures TagsFit(x, k, Step(x, tabs, bits, items, views), it)
  {
    hide LaneOk, Interactive, Basic, Sum, Cong, CanSend, WellFormed, KeysOk, ItemHeld, WiresAfter, QValAfter, QShAfter,
         CommOrder, OpenedAll, LeafShares, LeafSecrets, AllDealt, SameShares, InRange, Eval, ItemExpr;
    HoldsBasic(x, k, tabs, it);
    HeldLeaves(x, k, tabs, wires, it);
    var after := Step(x, tabs, bits, items, views);
    var T, g := tabs[0][it.lane], x.gates[it.w];
    var e := ItemExpr(x.m, g, PublicInputs(g, it.lane, wires), Get(bits, it));
    forall i | 1 <= i <= x.c.nP
      ensures CanSend(x, tabs[i], it)
      ensures GetSh(after[i].qSh, it) == ItemShare(x, i, tabs[i], wires, bits, it)
      ensures SameShares(x.c, i, LeafShares(T, g, it.w), PartyLeaf(x, tabs[i], it))
      ensures InRange(e, |PartyLeaf(x, tabs[i], it)|)
    {
      KeptShare(x, i, tabs[i], wires, bits, items, |items|, views[i].qSh, it);
      assert items[..|items|] == items;
      LeavesSame(x, k, tabs, it, i);
      ExprInRange(x, tabs[i], it, PublicInputs(g, it.lane, wires), Get(bits, it));
    }
    var d, p, ss := LeafShares(T, g, it.w), PartyLeaves(x, tabs, it), LeafSecrets(x.m, T, g, it.w);
    assert InRange(e, |ss|) by {
      BasicExpr(x.m, g, PublicInputs(g, it.lane, wires), Get(bits, it));
    }
    forall i | 1 <= i <= x.c.nP
      ensures SameShares(x.c, i, d, p[i])
      ensures InRange(e, |p[i]|)
      ensures StoredValues(x, after, it)[i - 1] == Eval(x.m, e, Auths(p[i]), i).value
      ensures StoredTags(x, after, it)[i - 1] == Eval(x.m, e, Auths(p[i]), i).tag
    {
      assert p[i] == PartyLeaf(x, tabs[i], it);
    }
    JointFits(x.c, x.m, k, e, d, p, ss, StoredValues(x, after, it), StoredTags(x, after, it));
  }

  lemma HoldsBasic(x: Ctx, k: Keys, tabs: seq<seq<Table>>, it: Item)
    requires CtxOk(x) && |tabs| == x.c.nP + 1 && LaneOk(x, k, tabs, it.lane)
    requires it.w < |x.gates| && Interactive(x.gates[it.w]) && Basic(x.gates[it.w])
    ensures it.lane < |tabs[0]| && ItemHeld(x, k, tabs, it)
  {
  }

  lemma BasicExpr(m: nat, g: Gate, v: seq<int>, bit: int)
    requires m > 0 && Basic(g) && Interactive(g) && |v| == |Ins(g)| && (g.Simd? ==> |g.ins1| == |g.ins2|)
    ensures ItemExpr(m, g, v, bit) == ItemExpr(m, g, v, 0)
  {
  }

  // ---- the combination -----------------------------------------------------------------------------

  /** How many random factors a gate takes.  The cases of the program's switch run into one
      another: a product of two takes its own and those of the three cases below it. */
  function Draws(g: Gate): nat {
    match g
    case Mul2(_, _) => 4
    case Simd(trunc, _, _) => if trunc then 0 else 3
    case Mul3(_, _, _) => 2
    case Mul4(_, _, _, _) => 1
    case _ => 0
  }

  function DrawsBefore(gates: seq<Gate>, order: seq<Item>, n: nat): nat
    requires ItemsOk(gates, order) && n <= |order|
  {
    if n == 0 then 0 else DrawsBefore(gates, order, n - 1) + Draws(gates[order[n - 1].w])
  }

  /** The sum of `cnt` factors of the stream from `start` on. */
  function Weight(rho: nat -> int, start: nat, cnt: nat): int {
    if cnt == 0 then 0 else Weight(rho, start, cnt - 1) + rho(start + cnt - 1)
  }

  function AddDraws(m: nat, acc: int, rho: nat -> int, start: nat, cnt: nat, term: int): int
    requires m > 0
  {
    if cnt == 0 then acc
    else Add(m, AddDraws(m, acc, rho, start, cnt - 1, term), Mul(m, rho(start + cnt - 1), term))
  }

  /** What a party's key share and tag share say about the opened value q. */
  function Term(m: nat, q: int, key: int, tag: int): int
    requires m > 0
  {
    Sub(m, Mul(m, q, key), tag)
  }

  /** A party's combination over the first n gates of the traversal. */
  function Omega(x: Ctx, order: seq<Item>, n: nat, rho: nat -> int, key: int, v: View): int
    requires CtxOk(x) && ItemsOk(x.gates, order) && n <= |order|
  {
    if n == 0 then 0 else
      var it := order[n - 1];
      AddDraws(x.m, Omega(x, order, n - 1, rho, key, v), rho, DrawsBefore(x.gates, order, n - 1),
               Draws(x.gates[it.w]), Term(x.m, Get(v.qVal, it), key, GetSh(v.qSh, it).tag))
  }

  function Omegas(x: Ctx, order: seq<Item>, n: nat, rho: nat -> int, keys: seq<int>, views: seq<View>): (s: seq<int>)
    requires CtxOk(x) && ItemsOk(x.gates, order) && n <= |order| && |keys| == |views| == x.c.nP + 1
    ensures |s| == x.c.nP
    ensures forall p :: 0 <= p < |s| ==> s[p] == Omega(x, order, n, rho, keys[p + 1], views[p + 1])
  {
    seq(x.c.nP, p requires 0 <= p < x.c.nP => Omega(x, order, n, rho, keys[p + 1], views[p + 1]))
  }

  /** What the dealer adds up and everybody compares with zero. */
  function Residue(x: Ctx, order: seq<Item>, rho: nat -> int, keys: seq<int>, views: seq<View>): int
    requires CtxOk(x) && ItemsOk(x.gates, order) && |keys| == |views| == x.c.nP + 1
  {
    SumMod(x.m, Omegas(x, order, |order|, rho, keys, views))
  }

  /** How far an opened value is from the sum of the shares that were sent. */
  function Change(x: Ctx, qVal: map<Item, int>, views: seq<View>, it: Item): int
    requires |views| == x.c.nP + 1
  {
    Get(qVal, it) - Sum(StoredValues(x, views, it))
  }

  function WeightedChanges(x: Ctx, order: seq<Item>, n: nat, rho: nat -> int, qVal: map<Item, int>,
                           views: seq<View>): int
    requires ItemsOk(x.gates, order) && n <= |order| && |views| == x.c.nP + 1
  {
    if n == 0 then 0 else
      var it := order[n - 1];
      WeightedChanges(x, order, n - 1, rho, qVal, views)
        + Weight(rho, DrawsBefore(x.gates, order, n - 1), Draws(x.gates[it.w])) * Change(x, qVal, views, it)
  }

  function AddDrawsAll(m: nat, acc: seq<int>, rho: nat -> int, start: nat, cnt: nat, terms: seq<int>): (s: seq<int>)
    requires m > 0 && |acc| == |terms|
    ensures |s| == |acc| && forall p :: 0 <= p < |s| ==> s[p] == AddDraws(m, acc[p], rho, start, cnt, terms[p])
  {
    seq(|acc|, p requires 0 <= p < |acc| => AddDraws(m, acc[p], rho, start, cnt, terms[p]))
  }

  lemma {:induction false} DrawsSum(m: nat, acc: seq<int>, rho: nat -> int, start: nat, cnt: nat, terms: seq<int>)
    requires m > 0 && |acc| == |terms|
    ensures Cong(m, Sum(AddDrawsAll(m, acc, rho, start, cnt, terms)), Sum(acc) + Weight(rho, start, cnt) * Sum(terms))
  {
    var r := AddDrawsAll(m, acc, rho, start, cnt, terms);
    if cnt == 0 {
      assert r == acc;
      assert 0 * Sum(terms) == 0;
    } else {
      hide Sum, Cong, Mul, Add;
      var f := rho(start + cnt - 1);
      var before := AddDrawsAll(m, acc, rho, start, cnt - 1, terms);
      DrawsSum(m, acc, rho, start, cnt - 1, terms);
      var scaled := seq(|terms|, p requires 0 <= p < |terms| => Mul(m, terms[p], f));
      SumScaled(m, terms, f, scaled);
      forall p | 0 <= p < |r| ensures r[p] == Add(m, before[p], scaled[p]) {
        MulComm(m, terms[p], f);
      }
      SumAdded(m, before, scaled, r);
      DrawsCollect(m, Sum(r), Sum(before), Sum(scaled), Sum(acc), Weight(rho, start, cnt - 1), Sum(terms), f);
    }
  }

  lemma MulComm(m: nat, a: int, b: int)
    requires m > 0
    ensures Mul(m, a, b) == Mul(m, b, a)
  {
    assert a * b == b * a;
  }

  lemma DrawsCollect(m: nat, r: int, before: int, scaled: int, acc: int, w: int, t: int, f: int)
    requires m > 0 && Cong(m, r, before + scaled) && Cong(m, before, acc + w * t) && Cong(m, scaled, t * f)
    ensures Cong(m, r, acc + (w + f) * t)
  {
    CongAdd(m, before, acc + w * t, scaled, t * f);
    assert (w + f) * t == w * t + f * t && f * t == t * f;
  }

  function Terms(x: Ctx, keys: seq<int>, views: seq<View>, it: Item): (s: seq<int>)
    requires CtxOk(x) && |keys| == |views| == x.c.nP + 1
    ensures |s| == x.c.nP
    ensures forall p :: 0 <= p < |s| ==>
      s[p] == Term(x.m, Get(views[p + 1].qVal, it), keys[p + 1], GetSh(views[p + 1].qSh, it).tag)
  {
    seq(x.c.nP, p requires 0 <= p < x.c.nP =>
      Term(x.m, Get(views[p + 1].qVal, it), keys[p + 1], GetSh(views[p + 1].qSh, it).tag))
  }

  ghost predicate SameOpened(x: Ctx, views: seq<View>, qVal: map<Item, int>) {
    |views| == x.c.nP + 1 && forall i :: 1 <= i <= x.c.nP ==> views[i].qVal == qVal
  }

  lemma {:induction false} TermSum(m: nat, q: int, keys: seq<int>, tags: seq<int>, terms: seq<int>)
    requires m > 0 && |keys| == |tags| == |terms|
    requires forall p :: 0 <= p < |terms| ==> terms[p] == Term(m, q, keys[p], tags[p])
    ensures Cong(m, Sum(terms), q * Sum(keys) - Sum(tags))
  {
    if terms == [] {
      assert q * 0 == 0;
    } else {
      var n := |terms| - 1;
      TermSum(m, q, keys[..n], tags[..n], terms[..n]);
      assert Sum(terms) == Sum(terms[..n]) + terms[n] && Sum(keys) == Sum(keys[..n]) + keys[n]
          && Sum(tags) == Sum(tags[..n]) + tags[n];
      hide Sum, Cong;
      TermCollect(m, q, keys[n], tags[n], Sum(terms[..n]), Sum(keys[..n]), Sum(tags[..n]));
    }
  }

  lemma TermCollect(m: nat, q: int, key: int, tag: int, t: int, ks: int, ts: int)
    requires m > 0 && Cong(m, t, q * ks - ts)
    ensures Cong(m, t + Term(m, q, key, tag), q * (ks + key) - (ts + tag))
  {
    CongMod(m, q * key);
    CongSub(m, Mul(m, q, key), q * key, tag, tag);
    CongMod(m, Mul(m, q, key) - tag);
    CongAdd(m, t, q * ks - ts, Term(m, q, key, tag), q * key - tag);
    assert q * (ks + key) == q * ks + q * key;
  }

  /** One gate's contribution: the key times the change. */
  lemma GateTerm(x: Ctx, k: Keys, views: seq<View>, qVal: map<Item, int>, it: Item)
    requires CtxOk(x) && |k.sh| == x.c.nP + 1 && KeysOk(x.m, k.sh, k.key)
    requires SameOpened(x, views, qVal) && TagsFit(x, k, views, it)
    ensures Cong(x.m, Sum(Terms(x, k.sh, views, it)), k.key * Change(x, qVal, views, it))
  {
    hide Sum, Cong, Term;
    var q, keys, tags := Get(qVal, it), Tail(k.sh), StoredTags(x, views, it);
    SumTail(k.sh);
    forall p | 0 <= p < x.c.nP ensures Terms(x, k.sh, views, it)[p] == Term(x.m, q, keys[p], tags[p]) {
      assert views[p + 1].qVal == qVal;
    }
    TermSum(x.m, q, keys, tags, Terms(x, k.sh, views, it));
    TermsClose(x.m, k.key, q, Sum(Terms(x, k.sh, views, it)), Sum(k.sh), Sum(tags), Sum(StoredValues(x, views, it)));
  }

  lemma TermsClose(m: nat, key: int, q: int, t: int, ks: int, ts: int, s: int)
    requires m > 0 && Cong(m, t, q * ks - ts) && Cong(m, ks, key) && Cong(m, ts, key * s)
    ensures Cong(m, t, key * (q - s))
  {
    CongScale(m, ks, key, q);
    CongSub(m, q * ks, q * key, ts, key * s);
    assert key * (q - s) == q * key - key * s;
  }

  lemma {:induction false} OmegaSum(x: Ctx, k: Keys, order: seq<Item>, n: nat, rho: nat -> int, views: seq<View>,
                                    qVal: map<Item, int>)
    requires CtxOk(x) && |k.sh| == x.c.nP + 1 && KeysOk(x.m, k.sh, k.key)
    requires ItemsOk(x.gates, order) && n <= |order| && SameOpened(x, views, qVal)
    requires forall j :: 0 <= j < n && Draws(x.gates[order[j].w]) > 0 ==> TagsFit(x, k, views, order[j])
    ensures Cong(x.m, Sum(Omegas(x, order, n, rho, k.sh, views)),
                 k.key * WeightedChanges(x, order, n, rho, qVal, views))
  {
    hide Sum, Cong, TagsFit, Draws, DrawsBefore, Weight, AddDraws, Change, KeysOk, WellFormed, Omega;
    if n == 0 {
      OmegaNone(x, order, rho, k.sh, views, k.key);
    } else {
      var it := order[n - 1];
      var start, cnt := DrawsBefore(x.gates, order, n - 1), Draws(x.gates[it.w]);
      var acc, terms := Omegas(x, order, n - 1, rho, k.sh, views), Terms(x, k.sh, views, it);
      var ws, w, e := WeightedChanges(x, order, n - 1, rho, qVal, views), Weight(rho, start, cnt),
                      Change(x, qVal, views, it);
      OmegaSum(x, k, order, n - 1, rho, views, qVal);
      OmegasStep(x, order, n, rho, k.sh, views);
      DrawsSum(x.m, acc, rho, start, cnt, terms);
      assert Cong(x.m, w * Sum(terms), w * (k.key * e)) by {
        if cnt == 0 {
          NoWeight(x.m, rho, start, Sum(terms), k.key * e);
        } else {
          GateTerm(x, k, views, qVal, it);
          CongScale(x.m, Sum(terms), k.key * e, w);
        }
      }
      OmegaCollect(x.m, k.key, Sum(Omegas(x, order, n, rho, k.sh, views)), Sum(acc), ws, w, Sum(terms), e);
    }
  }

  lemma OmegaNone(x: Ctx, order: seq<Item>, rho: nat -> int, keys: seq<int>, views: seq<View>, key: int)
    requires CtxOk(x) && ItemsOk(x.gates, order) && |keys| == |views| == x.c.nP + 1
    ensures Cong(x.m, Sum(Omegas(x, order, 0, rho, keys, views)), key * 0)
  {
    SumZero(Omegas(x, order, 0, rho, keys, views));
  }

  lemma OmegasStep(x: Ctx, order: seq<Item>, n: nat, rho: nat -> int, keys: seq<int>, views: seq<View>)
    requires CtxOk(x) && ItemsOk(x.gates, order) && 0 < n <= |order| && |keys| == |views| == x.c.nP + 1
    ensures Omegas(x, order, n, rho, keys, views)
         == AddDrawsAll(x.m, Omegas(x, order, n - 1, rho, keys, views), rho, DrawsBefore(x.gates, order, n - 1),
                        Draws(x.gates[order[n - 1].w]), Terms(x, keys, views, order[n - 1]))
  {
  }

  lemma NoWeight(m: nat, rho: nat -> int, start: nat, t: int, u: int)
    requires m > 0
    ensures Cong(m, Weight(rho, start, 0) * t, Weight(rho, start, 0) * u)
  {
    assert 0 * t == 0 && 0 * u == 0;
  }

  lemma OmegaCollect(m: nat, key: int, r: int, acc: int, ws: int, w: int, t: int, e: int)
    requires m > 0 && Cong(m, r, acc + w * t) && Cong(m, acc, key * ws) && Cong(m, w * t, w * (key * e))
    ensures Cong(m, r, key * (ws + w * e))
  {
    CongAdd(m, acc, key * ws, w * t, w * (key * e));
    assert key * (ws + w * e) == key * ws + w * (key * e) by {
      assert key * (w * e) == w * (key * e);
    }
  }

  /** The residue is the key times the weighted sum of the changes, whatever was changed. */
  lemma ResidueIsKeyTimesChanges(x: Ctx, k: Keys, order: seq<Item>, rho: nat -> int, views: seq<View>,
                                 qVal: map<Item, int>)
    requires CtxOk(x) && |k.sh| == x.c.nP + 1 && KeysOk(x.m, k.sh, k.key)
    requires ItemsOk(x.gates, order) && SameOpened(x, views, qVal)
    requires forall j :: 0 <= j < |order| && Draws(x.gates[order[j].w]) > 0 ==> TagsFit(x, k, views, order[j])
    ensures Cong(x.m, Residue(x, order, rho, k.sh, views), k.key * WeightedChanges(x, order, |order|, rho, qVal, views))
    ensures 0 <= Residue(x, order, rho, k.sh, views) < x.m
  {
    hide Sum, SumMod, TagsFit, Draws, WellFormed, KeysOk, WeightedChanges;
    var omegas := Omegas(x, order, |order|, rho, k.sh, views);
    OmegaSum(x, k, order, |order|, rho, views, qVal);
    SumModIsSum(x.m, omegas);
  }
}
