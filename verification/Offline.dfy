/** The offline phase: one pass over the gates in level order, run by the dealer and by
    every party, that gives every wire a shared mask and every interactive gate shared
    products of its input masks. */
module Offline {
  import opened Circuits
  import opened Sharing
  import opened Dealing
  import Z = ZMod

  /** What is kept for a gate.  `Compare` belongs to a less-than-zero gate: its own
      Boolean circuit is masked too. */
  datatype Pre =
    | Local(mask: Share)
    | Input(mask: Share, owner: nat, maskValue: int)
    | Product(mask: Share, prods: seq<Share>)
    | Compare(mask: Share, maskW: Share, maskB: Share, padded: int, inner: map<Wire, Pre>)

  type Table = map<Wire, Pre>

  /** Where input wires get their masks: from the party that owns the input, or from a
      list shared beforehand that is reused cyclically. */
  datatype Inputs = Owned(owners: map<Wire, nat>) | Supplied(shares: seq<Share>)

  predicate Basic(g: Gate) {
    !g.Unary? && (g.Simd? ==> !g.trunc)
  }

  ghost predicate AllBasic(gates: seq<Gate>) {
    forall i :: 0 <= i < |gates| ==> Basic(gates[i])
  }

  /** An order in which no gate is repeated and each finds its inputs done. */
  ghost predicate Topological(gates: seq<Gate>, order: seq<Wire>) {
    forall j :: 0 <= j < |order| ==> Ready(gates, order, j)
  }

  ghost predicate Ready(gates: seq<Gate>, order: seq<Wire>, j: nat)
    requires j < |order|
  {
    && order[j] < |gates| && order[j] !in order[..j]
    && forall w :: w in Ins(gates[order[j]]) ==> w in order[..j]
  }

  lemma {:induction false} FlattenTopological(gates: seq<Gate>, ls: seq<seq<Wire>>, n: nat)
    requires LevelOrdered(gates, ls) && n <= |ls|
    ensures Topological(gates, Flatten(ls[..n]))
  {
    if n > 0 {
      FlattenTopological(gates, ls, n - 1);
      assert ls[..n][..n - 1] == ls[..n - 1];
      var lo, hi := Flatten(ls[..n - 1]), ls[n - 1];
      assert Flatten(ls[..n]) == lo + hi;
      forall j | 0 <= j < |lo + hi| ensures Ready(gates, lo + hi, j) {
        if j < |lo| {
          assert Ready(gates, lo, j);
          assert (lo + hi)[..j] == lo[..j];
        } else {
          assert PlaceOk(gates, ls, n - 1, j - |lo|);
          assert (lo + hi)[..j] == lo + hi[..j - |lo|];
        }
      }
    }
  }

  // ---- masks of gates --------------------------------------------------------------------

  /** How the mask of a gate without communication follows from its input masks. */
  function MaskExpr(g: Gate): (e: Expr)
    ensures Linear(e)
    ensures (g.Lin? || g.ConstAdd? || g.ConstMul?) ==> InRange(e, |Ins(g)|)
  {
    match g
    case Lin(sub, _, _) => if sub then Minus(Leaf(0), Leaf(1)) else Plus(Leaf(0), Leaf(1))
    case ConstMul(_, k) => Times(Leaf(0), k)
    case _ => Leaf(0)
  }

  function DotMasks(m: nat, xs: seq<int>, ys: seq<int>): int
    requires m > 0 && |xs| == |ys|
  {
    if xs == [] then 0 else
      var k := |xs| - 1;
      Z.Add(m, DotMasks(m, xs[..k], ys[..k]), Z.Mul(m, xs[k], ys[k]))
  }

  /** The products of input masks an interactive gate needs, in the order they are shared. */
  function Products(m: nat, g: Gate, d: seq<int>): seq<int>
    requires m > 0 && |d| == |Ins(g)| && (g.Simd? ==> |g.ins1| == |g.ins2|)
  {
    match g
    case Mul2(_, _) => [Z.Mul(m, d[0], d[1])]
    case Mul3(_, _, _) =>
      [Z.Mul(m, d[0], d[1]), Z.Mul(m, d[0], d[2]), Z.Mul(m, d[1], d[2]),
       Z.Mul(m, Z.Mul(m, d[0], d[1]), d[2])]
    case Mul4(_, _, _, _) =>
      var ab, ac := Z.Mul(m, d[0], d[1]), Z.Mul(m, d[0], d[2]);
      [ab, ac, Z.Mul(m, d[0], d[3]), Z.Mul(m, d[1], d[2]), Z.Mul(m, d[1], d[3]), Z.Mul(m, d[2], d[3]),
       Z.Mul(m, ab, d[2]), Z.Mul(m, ab, d[3]), Z.Mul(m, ac, d[3]),
       Z.Mul(m, Z.Mul(m, d[1], d[2]), d[3]), Z.Mul(m, Z.Mul(m, ab, d[2]), d[3])]
    case Simd(_, xs, ys) => [DotMasks(m, d[..|xs|], d[|xs|..])]
    case _ => []
  }

  function ProductCount(g: Gate): nat {
    match g
    case Mul2(_, _) => 1
    case Mul3(_, _, _) => 4
    case Mul4(_, _, _, _) => 11
    case Simd(_, _, _) => 1
    case _ => 0
  }

  /** The masks of a list of wires. */
  function Masks(pre: Table, ws: seq<Wire>): (s: seq<Share>)
    requires forall w :: w in ws ==> w in pre
    ensures |s| == |ws| && forall i :: 0 <= i < |s| ==> ws[i] in pre && s[i] == pre[ws[i]].mask
  {
    assert forall i :: 0 <= i < |ws| ==> ws[i] in ws;
    seq(|ws|, i requires 0 <= i < |ws| => pre[ws[i]].mask)
  }

  function Auths(s: seq<Share>): (a: seq<Auth>)
    ensures |a| == |s| && forall i :: 0 <= i < |s| ==> a[i] == s[i].auth
  {
    seq(|s|, i requires 0 <= i < |s| => s[i].auth)
  }

  function TPs(s: seq<Share>): (a: seq<TP>)
    ensures |a| == |s| && forall i :: 0 <= i < |s| ==> a[i] == s[i].tp
  {
    seq(|s|, i requires 0 <= i < |s| => s[i].tp)
  }

  ghost predicate SharesOk(c: Config, id: nat, s: seq<Share>) {
    id == 0 ==> forall i :: 0 <= i < |s| ==> TPOk(s[i].tp, c.nP + 1)
  }

  /** A linear combination of sharings, at the dealer on its record as well. */
  function Combine(c: Config, id: nat, m: nat, e: Expr, s: seq<Share>): (r: Share)
    requires m > 0 && InRange(e, |s|) && Linear(e) && SharesOk(c, id, s)
    ensures id == 0 ==> TPOk(r.tp, c.nP + 1)
  {
    Share(Eval(m, e, Auths(s), id), if id == 0 then TPEval(m, e, TPs(s), c.nP + 1) else NOTP)
  }

  /** The masks' values, which only the dealer knows. */
  function Deltas(m: nat, id: nat, s: seq<Share>): (d: seq<int>)
    requires m > 0
    ensures |d| == |s|
  {
    seq(|s|, i requires 0 <= i < |s| => if id == 0 then TPSecret(m, s[i].tp) else 0)
  }

  /** Shares known values one after the other. */
  function ShareSecrets(c: Config, id: nat, m: nat, k: Keys, secrets: seq<int>, st: St): (r: (seq<Share>, St))
    requires m > 0 && StOk(c, id, k, st)
    ensures |r.0| == |secrets| && Grows(st, r.1) && StOk(c, id, k, r.1) && SharesOk(c, id, r.0)
  {
    if secrets == [] then ([], st) else
      var n := |secrets| - 1;
      var (ss, st1) := ShareSecrets(c, id, m, k, secrets[..n], st);
      var (s, st2) := RandomShareSecret(c, id, m, k, secrets[n], st1);
      (ss + [s], st2)
  }

  ghost predicate TableOk(c: Config, id: nat, pre: Table) {
    id == 0 ==> forall w :: w in pre ==> TPOk(pre[w].mask.tp, c.nP + 1)
  }

  ghost predicate InputsOk(c: Config, id: nat, inp: Inputs, w: Wire) {
    match inp
    case Owned(owners) => w in owners && 0 < owners[w] <= c.nP
    case Supplied(shares) => |shares| > 0 && SharesOk(c, id, shares)
  }

  /** An interactive gate: a fresh mask, then sharings of the products of its input masks. */
  function ProductPre(c: Config, id: nat, m: nat, k: Keys, g: Gate, masks: seq<Share>, st: St): (r: (Pre, St))
    requires m > 0 && StOk(c, id, k, st) && |masks| == |Ins(g)| && (g.Simd? ==> |g.ins1| == |g.ins2|)
    ensures Grows(st, r.1) && StOk(c, id, k, r.1)
    ensures id == 0 ==> TPOk(r.0.mask.tp, c.nP + 1)
  {
    var secrets := Products(m, g, Deltas(m, id, masks));
    var (mask, st1) := RandomShare(c, id, m, k, st);
    var (prods, st2) := ShareSecrets(c, id, m, k, secrets, st1);
    (Product(mask, prods), st2)
  }

  /** One gate of a circuit without comparisons.  `seen` input gates came before it. */
  function BasicPre(c: Config, id: nat, m: nat, k: Keys, inp: Inputs, w: Wire, g: Gate, seen: nat, pre: Table, st: St)
    : (r: (Pre, St))
    requires m > 0 && StOk(c, id, k, st) && TableOk(c, id, pre) && Basic(g) && GateOk(g, w)
    requires forall v :: v in Ins(g) ==> v in pre
    requires g.Inp? ==> InputsOk(c, id, inp, w)
    ensures Grows(st, r.1) && StOk(c, id, k, r.1)
    ensures id == 0 ==> TPOk(r.0.mask.tp, c.nP + 1)
  {
    if g.Inp? then
      match inp
      case Owned(owners) =>
        var (s, v, st1) := RandomShareWithParty(c, id, m, k, owners[w], st);
        (Input(s, owners[w], v), st1)
      case Supplied(shares) => (Local(shares[seen % |shares|]), st)
    else if !Interactive(g) then
      (Local(Combine(c, id, m, MaskExpr(g), Masks(pre, Ins(g)))), st)
    else
      ProductPre(c, id, m, k, g, Masks(pre, Ins(g)), st)
  }

  function SeenInputs(gates: seq<Gate>, order: seq<Wire>): nat
    requires forall i :: 0 <= i < |order| ==> order[i] < |gates|
  {
    if order == [] then 0 else
      SeenInputs(gates, order[..|order| - 1]) + if gates[order[|order| - 1]].Inp? then 1 else 0
  }

  ghost predicate RunOk(c: Config, id: nat, gates: seq<Gate>, inp: Inputs, order: seq<Wire>) {
    && WellFormed(gates) && Topological(gates, order)
    && (forall w: Wire :: w < |gates| && gates[w].Inp? ==> InputsOk(c, id, inp, w))
  }

  lemma RunOkPrefix(c: Config, id: nat, gates: seq<Gate>, inp: Inputs, order: seq<Wire>, n: nat)
    requires RunOk(c, id, gates, inp, order) && n <= |order|
    ensures RunOk(c, id, gates, inp, order[..n])
  {
    forall j | 0 <= j < n ensures Ready(gates, order[..n], j) {
      assert Ready(gates, order, j);
      assert order[..n][..j] == order[..j];
    }
  }

  lemma OrderBelow(gates: seq<Gate>, order: seq<Wire>)
    requires Topological(gates, order)
    ensures forall i :: 0 <= i < |order| ==> order[i] < |gates|
  {
    forall i | 0 <= i < |order| ensures order[i] < |gates| {
      assert Ready(gates, order, i);
    }
  }

  /** What a pass needs to know about its last gate. */
  lemma LastReady(c: Config, id: nat, gates: seq<Gate>, inp: Inputs, order: seq<Wire>)
    requires RunOk(c, id, gates, inp, order) && order != []
    ensures var n := |order| - 1;
      && RunOk(c, id, gates, inp, order[..n])
      && (forall i :: 0 <= i < |order| ==> order[i] < |gates|)
      && GateOk(gates[order[n]], order[n]) && order == order[..n] + [order[n]]
      && (forall v :: v in Ins(gates[order[n]]) ==> v in order[..n])
      && (gates[order[n]].Inp? ==> InputsOk(c, id, inp, order[n]))
      && order[n] !in order[..n]
  {
    hide GateOk, Ins, InputsOk;
    var n := |order| - 1;
    RunOkPrefix(c, id, gates, inp, order, n);
    OrderBelow(gates, order);
    assert Ready(gates, order, n);
  }

  /** The same for gate j of the order. */
  lemma GateReady(c: Config, id: nat, gates: seq<Gate>, inp: Inputs, order: seq<Wire>, j: nat)
    requires RunOk(c, id, gates, inp, order) && j < |order|
    ensures order[j] < |gates| && GateOk(gates[order[j]], order[j]) && order[j] !in order[..j]
    ensures forall v :: v in Ins(gates[order[j]]) ==> v in order[..j]
    ensures gates[order[j]].Inp? ==> InputsOk(c, id, inp, order[j])
    ensures order[..j + 1] == order[..j] + [order[j]]
    ensures forall i :: 0 <= i < |order[..j]| ==> order[..j][i] < |gates|
  {
    hide GateOk, Ins, InputsOk;
    OrderBelow(gates, order);
    assert Ready(gates, order, j);
  }

  /** The pass over a circuit without comparisons. */
  function RunBasic(c: Config, id: nat, m: nat, k: Keys, inp: Inputs, gates: seq<Gate>, order: seq<Wire>, st: St)
    : (r: (Table, St))
    requires m > 0 && StOk(c, id, k, st) && AllBasic(gates) && RunOk(c, id, gates, inp, order)
    ensures Grows(st, r.1) && StOk(c, id, k, r.1) && TableOk(c, id, r.0)
    ensures forall w: Wire :: w in r.0 <==> w in order
  {
    if order == [] then (map[], st) else
      var n := |order| - 1;
      LastReady(c, id, gates, inp, order);
      var (pre, st1) := RunBasic(c, id, m, k, inp, gates, order[..n], st);
      var w := order[n];
      var (p, st2) := BasicPre(c, id, m, k, inp, w, gates[w], SeenInputs(gates, order[..n]), pre, st1);
      (pre[w := p], st2)
  }

  // ---- lockstep of the dealer and party i ---------------------------------------------------

  ghost predicate SameShares(c: Config, i: nat, d: seq<Share>, p: seq<Share>) {
    |d| == |p| && forall j :: 0 <= j < |d| ==> SameShare(c, i, d[j], p[j])
  }

  ghost predicate SameBasic(c: Config, i: nat, d: Pre, p: Pre) {
    && SameShare(c, i, d.mask, p.mask)
    && (d.Local? ==> p.Local?)
    && (d.Input? ==> p.Input? && p.owner == d.owner && (i == d.owner ==> p.maskValue == d.maskValue))
    && (d.Product? ==> p.Product? && SameShares(c, i, d.prods, p.prods))
  }

  ghost predicate SameTable(c: Config, i: nat, d: Table, p: Table) {
    (forall w :: w in d <==> w in p) && forall w :: w in d ==> SameBasic(c, i, d[w], p[w])
  }

  ghost predicate SameCompare(c: Config, i: nat, d: Pre, p: Pre) {
    d.Compare? ==>
      && p.Compare? && SameShare(c, i, d.maskW, p.maskW) && SameShare(c, i, d.maskB, p.maskB)
      && p.padded == d.padded && SameTable(c, i, d.inner, p.inner)
  }

  ghost predicate SameTables(c: Config, i: nat, d: Table, p: Table) {
    SameTable(c, i, d, p) && forall w :: w in d ==> SameCompare(c, i, d[w], p[w])
  }

  ghost predicate SameInputs(c: Config, i: nat, d: Inputs, p: Inputs) {
    match d
    case Owned(owners) => p == d
    case Supplied(shares) => p.Supplied? && SameShares(c, i, shares, p.shares)
  }

  lemma {:induction false} ShareSecretsInStep(c: Config, m: nat, sent: Chan, i: nat, kd: Keys, kp: Keys,
                                              ds: seq<int>, ps: seq<int>, d: St, p: St)
    requires m > 0 && StOk(c, 0, kd, d) && StOk(c, i, kp, p) && |ds| == |ps|
    requires InStep(c, sent, i, d, p) && KeyOf(c, i, kd, kp)
    requires Sent(sent, ShareSecrets(c, 0, m, kd, ds, d).1.ch)
    ensures InStep(c, sent, i, ShareSecrets(c, 0, m, kd, ds, d).1, ShareSecrets(c, i, m, kp, ps, p).1)
    ensures SameShares(c, i, ShareSecrets(c, 0, m, kd, ds, d).0, ShareSecrets(c, i, m, kp, ps, p).0)
  {
    if ds != [] {
      var n := |ds| - 1;
      var d1 := ShareSecrets(c, 0, m, kd, ds[..n], d).1;
      var p1 := ShareSecrets(c, i, m, kp, ps[..n], p).1;
      assert Grows(d1, RandomShareSecret(c, 0, m, kd, ds[n], d1).1);
      ShareSecretsInStep(c, m, sent, i, kd, kp, ds[..n], ps[..n], d, p);
      RandomShareSecretInStep(c, m, sent, i, kd, kp, ds[n], ps[n], d1, p1);
    }
  }

  lemma CombineInStep(c: Config, m: nat, e: Expr, i: nat, d: seq<Share>, p: seq<Share>)
    requires m > 0 && InRange(e, |d|) && Linear(e) && SameShares(c, i, d, p) && 0 < i <= c.nP
    ensures SameShare(c, i, Combine(c, 0, m, e, d), Combine(c, i, m, e, p))
  {
    DealerInStep(m, e, TPs(d), Auths(p), c.nP + 1, i);
  }

  lemma ProductPreInStep(c: Config, m: nat, sent: Chan, i: nat, kd: Keys, kp: Keys, g: Gate,
                         dm: seq<Share>, pm: seq<Share>, d: St, p: St)
    requires m > 0 && |dm| == |pm| == |Ins(g)| && (g.Simd? ==> |g.ins1| == |g.ins2|)
    requires StOk(c, 0, kd, d) && StOk(c, i, kp, p) && InStep(c, sent, i, d, p) && KeyOf(c, i, kd, kp)
    requires Sent(sent, ProductPre(c, 0, m, kd, g, dm, d).1.ch)
    ensures InStep(c, sent, i, ProductPre(c, 0, m, kd, g, dm, d).1, ProductPre(c, i, m, kp, g, pm, p).1)
    ensures SameBasic(c, i, ProductPre(c, 0, m, kd, g, dm, d).0, ProductPre(c, i, m, kp, g, pm, p).0)
  {
    var ds := Products(m, g, Deltas(m, 0, dm));
    var ps := Products(m, g, Deltas(m, i, pm));
    var d1 := RandomShare(c, 0, m, kd, d).1;
    assert Grows(d1, ShareSecrets(c, 0, m, kd, ds, d1).1);
    RandomShareInStep(c, m, sent, i, kd, kp, d, p);
    ShareSecretsInStep(c, m, sent, i, kd, kp, ds, ps, d1, RandomShare(c, i, m, kp, p).1);
  }

  lemma BasicPreInStep(c: Config, m: nat, sent: Chan, i: nat, kd: Keys, kp: Keys, di: Inputs, pi: Inputs,
                       w: Wire, g: Gate, seen: nat, dt: Table, pt: Table, d: St, p: St)
    requires m > 0 && Basic(g) && GateOk(g, w)
    requires StOk(c, 0, kd, d) && TableOk(c, 0, dt) && StOk(c, i, kp, p) && TableOk(c, i, pt)
    requires forall v :: v in Ins(g) ==> v in dt
    requires g.Inp? ==> InputsOk(c, 0, di, w) && InputsOk(c, i, pi, w)
    requires InStep(c, sent, i, d, p) && KeyOf(c, i, kd, kp) && SameTable(c, i, dt, pt) && SameInputs(c, i, di, pi)
    requires Sent(sent, BasicPre(c, 0, m, kd, di, w, g, seen, dt, d).1.ch)
    ensures InStep(c, sent, i, BasicPre(c, 0, m, kd, di, w, g, seen, dt, d).1,
                               BasicPre(c, i, m, kp, pi, w, g, seen, pt, p).1)
    ensures SameBasic(c, i, BasicPre(c, 0, m, kd, di, w, g, seen, dt, d).0,
                            BasicPre(c, i, m, kp, pi, w, g, seen, pt, p).0)
  {
    if g.Inp? {
      if di.Owned? {
        RandomShareWithPartyInStep(c, m, sent, i, kd, kp, di.owners[w], d, p);
      }
    } else if !Interactive(g) {
      CombineInStep(c, m, MaskExpr(g), i, Masks(dt, Ins(g)), Masks(pt, Ins(g)));
    } else {
      ProductPreInStep(c, m, sent, i, kd, kp, g, Masks(dt, Ins(g)), Masks(pt, Ins(g)), d, p);
    }
  }

  lemma SameTableStep(c: Config, i: nat, dt: Table, pt: Table, w: Wire, dp: Pre, pp: Pre)
    requires SameTable(c, i, dt, pt) && SameBasic(c, i, dp, pp)
    ensures SameTable(c, i, dt[w := dp], pt[w := pp])
  {
  }

  lemma SentBefore(sent: Chan, a: St, b: St)
    requires Grows(a, b) && Sent(sent, b.ch)
    ensures Sent(sent, a.ch)
  {
  }

  /** The whole pass keeps the dealer and party i in step, gate by gate. */
  lemma {:induction false} RunBasicInStep(c: Config, m: nat, sent: Chan, i: nat, kd: Keys, kp: Keys,
                                          di: Inputs, pi: Inputs, gates: seq<Gate>, order: seq<Wire>, d: St, p: St)
    requires m > 0 && AllBasic(gates) && RunOk(c, 0, gates, di, order) && RunOk(c, i, gates, pi, order)
    requires StOk(c, 0, kd, d) && StOk(c, i, kp, p)
    requires InStep(c, sent, i, d, p) && KeyOf(c, i, kd, kp) && SameInputs(c, i, di, pi)
    requires Sent(sent, RunBasic(c, 0, m, kd, di, gates, order, d).1.ch)
    ensures InStep(c, sent, i, RunBasic(c, 0, m, kd, di, gates, order, d).1,
                   RunBasic(c, i, m, kp, pi, gates, order, p).1)
    ensures SameTable(c, i, RunBasic(c, 0, m, kd, di, gates, order, d).0, RunBasic(c, i, m, kp, pi, gates, order, p).0)
  {
    hide SameBasic, GateOk, BasicPre, KeyOf, WellFormed, Topological, Ins, Basic, RunOk, Sent, Grows, SameInputs;
    if order != [] {
      var n := |order| - 1;
      LastReady(c, 0, gates, di, order);
      LastReady(c, i, gates, pi, order);
      var w, seen := order[n], SeenInputs(gates, order[..n]);
      var (dt, d1) := RunBasic(c, 0, m, kd, di, gates, order[..n], d);
      var (pt, p1) := RunBasic(c, i, m, kp, pi, gates, order[..n], p);
      SentBefore(sent, d1, BasicPre(c, 0, m, kd, di, w, gates[w], seen, dt, d1).1);
      RunBasicInStep(c, m, sent, i, kd, kp, di, pi, gates, order[..n], d, p);
      BasicPreInStep(c, m, sent, i, kd, kp, di, pi, w, gates[w], seen, dt, pt, d1, p1);
      SameTableStep(c, i, dt, pt, w, BasicPre(c, 0, m, kd, di, w, gates[w], seen, dt, d1).0,
                    BasicPre(c, i, m, kp, pi, w, gates[w], seen, pt, p1).0);
    }
  }
}
