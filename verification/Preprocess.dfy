/** The whole offline phase: keys, then one pass in level order.  A less-than-zero gate
    masks a Boolean comparator of its own, in the middle of the pass and on the same
    streams. */
module Preprocess {
  import opened Circuits
  import opened Sharing
  import opened Dealing
  import opened Offline
  import Z = ZMod

  /** A number without its i lowest bits. */
  function Shr(v: nat, i: nat): nat {
    if i == 0 then v else Shr(v, i - 1) / 2
  }

  /** Bit i of a number. */
  function Bit(v: nat, i: nat): (b: int)
    ensures 0 <= b < 2
  {
    Shr(v, i) % 2
  }

  /** The Boolean circuit inside a comparison, its levels, the order of traversal they give
      and its output wire. */
  datatype Inner = Inner(gates: seq<Gate>, ls: seq<seq<Wire>>, order: seq<Wire>, out: Wire)

  ghost predicate InnerOk(inner: Inner) {
    && WellFormed(inner.gates) && AllBasic(inner.gates) && Topological(inner.gates, inner.order)
    && (forall w: Wire :: w < |inner.gates| ==> w in inner.order)
    && inner.out < |inner.gates|
  }

  /** A circuit with one output, ordered by level. */
  function LevelInner(gates: seq<Gate>, out: Wire): Inner
    requires WellFormed(gates)
  {
    var ls := ByLevel(Levels(gates));
    Inner(gates, ls, Flatten(ls), out)
  }

  lemma LevelInnerOk(gates: seq<Gate>, out: Wire)
    requires WellFormed(gates) && AllBasic(gates) && out < |gates|
    ensures InnerOk(LevelInner(gates, out)) && LevelOrdered(gates, LevelInner(gates, out).ls)
  {
    var ls := ByLevel(Levels(gates));
    LevelOrderSound(gates);
    FlattenTopological(gates, ls, |ls|);
    assert ls[..|ls|] == ls;
  }

  /** Cursors of the streams and the correction lists of the two rings. */
  datatype Full = Full(cur: seq<nat>, a: Chan, b: Chan)

  function Arith(st: Full): St { St(st.cur, st.a) }

  function Bool(st: Full): St { St(st.cur, st.b) }

  datatype FullKeys = FullKeys(a: Keys, b: Keys)

  ghost predicate FullOk(c: Config, id: nat, k: FullKeys, st: Full) {
    StOk(c, id, k.a, Arith(st)) && StOk(c, id, k.b, Bool(st))
  }

  ghost predicate FullGrows(s: Full, t: Full) {
    Grows(Arith(s), Arith(t)) && Grows(Bool(s), Bool(t))
  }

  /** The 64 bits of the padded input mask, most significant first; only the dealer knows
      them. */
  function PaddedBits(m: nat, id: nat, padded: int, input: Share): (s: seq<int>)
    requires m > 0
    ensures |s| == 64 && forall i :: 0 <= i < 64 ==> 0 <= s[i] < 2
    ensures id == 0 ==> forall i :: 0 <= i < 64 ==> s[i] == Bit(Z.Add(m, padded, TPSecret(m, input.tp)), 63 - i)
  {
    seq(64, i requires 0 <= i < 64 => if id == 0 then Bit(Z.Add(m, padded, TPSecret(m, input.tp)), 63 - i) else 0)
  }

  /** -2 times the mask of the opening minus the mask bit. */
  function LtzMask(): (e: Expr)
    ensures InRange(e, 2) && Linear(e)
  {
    var l, r := Times(Leaf(0), -2), Times(Leaf(1), -1);
    assert InRange(l, 2) && InRange(r, 2) && Linear(l) && Linear(r);
    Plus(l, r)
  }

  /** The Boolean part of a comparison: share the padded bits, mask the comparator. */
  function CompareBool(c: Config, id: nat, k: Keys, inner: Inner, secrets: seq<int>, st: St): (r: (Table, St))
    requires StOk(c, id, k, st) && InnerOk(inner) && |secrets| > 0
    ensures Grows(st, r.1) && StOk(c, id, k, r.1) && TableOk(c, id, r.0) && inner.out in r.0
  {
    var (shares, s1) := ShareSecrets(c, id, 2, k, secrets, st);
    RunBasic(c, id, 2, k, Supplied(shares), inner.gates, inner.order, s1)
  }

  /** The arithmetic part: share the output's mask bit, and mask the opening. */
  function CompareArith(c: Config, id: nat, m: nat, k: Keys, bit: int, st: St): (r: (Share, Share, St))
    requires m > 0 && StOk(c, id, k, st)
    ensures Grows(st, r.2) && StOk(c, id, k, r.2) && SharesOk(c, id, [r.0, r.1])
  {
    var (maskB, s3) := RandomShareSecret(c, id, m, k, bit, st);
    var (maskW, s4) := RandomShare(c, id, m, k, s3);
    (maskW, maskB, s4)
  }

  /** A comparison: pad and mask the input's bits, mask the comparator, share its output's
      mask in the field, and derive the mask of the result. */
  function ComparePre(c: Config, id: nat, m: nat, k: FullKeys, inner: Inner, input: Share, st: Full): (r: (Pre, Full))
    requires m > 0 && FullOk(c, id, k, st) && InnerOk(inner)
    ensures FullGrows(st, r.1) && FullOk(c, id, k, r.1)
    ensures r.0.Compare? && (id == 0 ==> TPOk(r.0.mask.tp, c.nP + 1))
  {
    var padded := Draw(c, m, 0, st.cur[0]);
    var (table, s2) := CompareBool(c, id, k.b, inner, PaddedBits(m, id, padded, input), St(Bump(st.cur, 0, 1), st.b));
    var bit := if id == 0 then TPSecret(2, table[inner.out].mask.tp) else 0;
    var (maskW, maskB, s4) := CompareArith(c, id, m, k.a, bit, St(s2.cur, st.a));
    var mask := Combine(c, id, m, LtzMask(), [maskW, maskB]);
    (Compare(mask, maskW, maskB, padded, table), Full(s4.cur, s4.ch, s2.ch))
  }

  /** One gate of the arithmetic circuit. */
  function GatePre(c: Config, id: nat, m: nat, k: FullKeys, inner: Inner, inp: Inputs, w: Wire, g: Gate, seen: nat,
                   pre: Table, st: Full): (r: (Pre, Full))
    requires m > 0 && FullOk(c, id, k, st) && InnerOk(inner) && TableOk(c, id, pre)
    requires (Basic(g) || g.Unary?) && GateOk(g, w)
    requires forall v :: v in Ins(g) ==> v in pre
    requires g.Inp? ==> InputsOk(c, id, inp, w)
    ensures FullGrows(st, r.1) && FullOk(c, id, k, r.1)
    ensures id == 0 ==> TPOk(r.0.mask.tp, c.nP + 1)
  {
    if g.Unary? then
      assert g.inp in Ins(g);
      ComparePre(c, id, m, k, inner, pre[g.inp].mask, st)
    else
      var (p, s) := BasicPre(c, id, m, k.a, inp, w, g, seen, pre, Arith(st));
      (p, Full(s.cur, s.ch, st.b))
  }

  /** Circuits of basic gates and less-than-zero tests. */
  ghost predicate AllSupported(gates: seq<Gate>) {
    forall i :: 0 <= i < |gates| ==> Basic(gates[i]) || (gates[i].Unary? && gates[i].kind == KLtz)
  }

  /** Adds the entry of one gate to the table. */
  function AddGate(c: Config, id: nat, m: nat, k: FullKeys, inner: Inner, inp: Inputs, w: Wire, g: Gate, seen: nat,
                   pre: Table, st: Full): (r: (Table, Full))
    requires m > 0 && FullOk(c, id, k, st) && InnerOk(inner) && TableOk(c, id, pre)
    requires (Basic(g) || g.Unary?) && GateOk(g, w)
    requires forall v :: v in Ins(g) ==> v in pre
    requires g.Inp? ==> InputsOk(c, id, inp, w)
    ensures FullGrows(st, r.1) && FullOk(c, id, k, r.1) && TableOk(c, id, r.0)
    ensures forall v: Wire :: v in r.0 <==> v in pre || v == w
  {
    var (p, st2) := GatePre(c, id, m, k, inner, inp, w, g, seen, pre, st);
    (pre[w := p], st2)
  }

  /** The first n gates of the pass. */
  function RunFull(c: Config, id: nat, m: nat, k: FullKeys, inner: Inner, inp: Inputs, gates: seq<Gate>,
                   order: seq<Wire>, n: nat, st: Full): (r: (Table, Full))
    requires m > 0 && FullOk(c, id, k, st) && InnerOk(inner) && AllSupported(gates) && RunOk(c, id, gates, inp, order)
    requires n <= |order|
    ensures FullOk(c, id, k, r.1) && TableOk(c, id, r.0)
    ensures forall w: Wire :: w in r.0 <==> w in order[..n]
  {
    if n == 0 then (map[], st) else
      var (pre, st1) := RunFull(c, id, m, k, inner, inp, gates, order, n - 1, st);
      GateReady(c, id, gates, inp, order, n - 1);
      AddGate(c, id, m, k, inner, inp, order[n - 1], gates[order[n - 1]], SeenInputs(gates, order[..n - 1]), pre, st1)
  }

  // ---- keys ----------------------------------------------------------------------------------

  /** The dealer's view of the keys: every party's share is the draw of its stream. */
  function DealerKeys(c: Config, m: nat, pos: nat): Keys
    requires m > 0
  {
    var sh := seq(c.nP + 1, i requires 0 <= i <= c.nP => if i == 0 then 0 else Draw(c, m, i, pos));
    Keys(Z.SumMod(m, sh), sh)
  }

  function KeysFor(c: Config, id: nat, m: nat): FullKeys
    requires m > 0
  {
    if id == 0 then FullKeys(DealerKeys(c, m, 0), DealerKeys(c, 2, 1))
    else FullKeys(Keys(Draw(c, m, id, 0), []), Keys(Draw(c, 2, id, 1), []))
  }

  /** After the keys were drawn, two draws of every stream an id shares with the dealer are
      used up. */
  function StartCur(c: Config, id: nat): (cur: seq<nat>)
    ensures |cur| == c.nP + 1
  {
    seq(c.nP + 1, i => if i > 0 && (id == 0 || i == id) then 2 else 0)
  }

  /** A received correction list, nothing read yet. */
  function Received(ch: Chan): Chan {
    Chan(ch.sh, ch.sec, ch.party, 0, 0, 0)
  }

  /** The offline phase of one id; the last party first received the dealer's lists. */
  function Preprocessing(c: Config, id: nat, m: nat, inner: Inner, inp: Inputs, gates: seq<Gate>, order: seq<Wire>)
    : (r: (Table, Full))
    requires m > 1 && c.nP > 0 && id <= c.nP && InnerOk(inner) && AllSupported(gates)
    requires RunOk(c, 0, gates, inp, order) && RunOk(c, id, gates, inp, order)
    ensures TableOk(c, id, r.0) && forall w: Wire :: w in r.0 <==> w in order[..|order|]
    decreases id
  {
    var lists := if id == c.nP then Preprocessing(c, 0, m, inner, inp, gates, order).1 else Full([], EMPTY, EMPTY);
    RunFull(c, id, m, KeysFor(c, id, m), inner, inp, gates, order, |order|,
            Full(StartCur(c, id), Received(lists.a), Received(lists.b)))
  }

  // ---- lockstep --------------------------------------------------------------------------------

  ghost predicate FullSent(sentA: Chan, sentB: Chan, d: Full) {
    Sent(sentA, d.a) && Sent(sentB, d.b)
  }

  ghost predicate FullInStep(c: Config, sentA: Chan, sentB: Chan, i: nat, d: Full, p: Full) {
    InStep(c, sentA, i, Arith(d), Arith(p)) && InStep(c, sentB, i, Bool(d), Bool(p))
  }

  ghost predicate FullKeyOf(c: Config, i: nat, kd: FullKeys, kp: FullKeys) {
    KeyOf(c, i, kd.a, kp.a) && KeyOf(c, i, kd.b, kp.b)
  }

  lemma CompareBoolInStep(c: Config, sent: Chan, i: nat, kd: Keys, kp: Keys, inner: Inner, ds: seq<int>, ps: seq<int>,
                          d: St, p: St)
    requires StOk(c, 0, kd, d) && StOk(c, i, kp, p) && InnerOk(inner) && |ds| == |ps| > 0
    requires InStep(c, sent, i, d, p) && KeyOf(c, i, kd, kp)
    requires Sent(sent, CompareBool(c, 0, kd, inner, ds, d).1.ch)
    ensures InStep(c, sent, i, CompareBool(c, 0, kd, inner, ds, d).1, CompareBool(c, i, kp, inner, ps, p).1)
    ensures SameTable(c, i, CompareBool(c, 0, kd, inner, ds, d).0, CompareBool(c, i, kp, inner, ps, p).0)
  {
    hide InStep, KeyOf, SameTable, WellFormed, Topological, AllBasic, SharesOk, SameShare, RunBasic, ShareSecrets;
    var (dsh, d1) := ShareSecrets(c, 0, 2, kd, ds, d);
    var (psh, p1) := ShareSecrets(c, i, 2, kp, ps, p);
    ShareSecretsInStep(c, 2, sent, i, kd, kp, ds, ps, d, p);
    RunBasicInStep(c, 2, sent, i, kd, kp, Supplied(dsh), Supplied(psh), inner.gates, inner.order, d1, p1);
  }

  lemma CompareArithInStep(c: Config, m: nat, sent: Chan, i: nat, kd: Keys, kp: Keys, db: int, pb: int, d: St, p: St)
    requires m > 0 && StOk(c, 0, kd, d) && StOk(c, i, kp, p)
    requires InStep(c, sent, i, d, p) && KeyOf(c, i, kd, kp)
    requires Sent(sent, CompareArith(c, 0, m, kd, db, d).2.ch)
    ensures var dr, pr := CompareArith(c, 0, m, kd, db, d), CompareArith(c, i, m, kp, pb, p);
      InStep(c, sent, i, dr.2, pr.2) && SameShare(c, i, dr.0, pr.0) && SameShare(c, i, dr.1, pr.1)
  {
    hide InStep, KeyOf, SameShare, RandomShare, RandomShareSecret;
    var d3 := RandomShareSecret(c, 0, m, kd, db, d).1;
    var p3 := RandomShareSecret(c, i, m, kp, pb, p).1;
    RandomShareSecretInStep(c, m, sent, i, kd, kp, db, pb, d, p);
    RandomShareInStep(c, m, sent, i, kd, kp, d3, p3);
  }

  lemma CompareInStep(c: Config, m: nat, sentA: Chan, sentB: Chan, i: nat, kd: FullKeys, kp: FullKeys, inner: Inner,
                      din: Share, pin: Share, d: Full, p: Full)
    requires m > 0 && FullOk(c, 0, kd, d) && FullOk(c, i, kp, p) && InnerOk(inner)
    requires FullInStep(c, sentA, sentB, i, d, p) && FullKeyOf(c, i, kd, kp)
    requires FullSent(sentA, sentB, ComparePre(c, 0, m, kd, inner, din, d).1)
    ensures FullInStep(c, sentA, sentB, i, ComparePre(c, 0, m, kd, inner, din, d).1,
                       ComparePre(c, i, m, kp, inner, pin, p).1)
    ensures SameBasic(c, i, ComparePre(c, 0, m, kd, inner, din, d).0, ComparePre(c, i, m, kp, inner, pin, p).0)
    ensures SameCompare(c, i, ComparePre(c, 0, m, kd, inner, din, d).0, ComparePre(c, i, m, kp, inner, pin, p).0)
  {
    hide SameShare, SameTable, KeyOf, RandomShare, RandomShareSecret, CompareBool, CompareArith, PaddedBits, InnerOk,
         Combine, LtzMask;
    var padded := Draw(c, m, 0, d.cur[0]);
    var db, pb := St(Bump(d.cur, 0, 1), d.b), St(Bump(p.cur, 0, 1), p.b);
    var ds, ps := PaddedBits(m, 0, padded, din), PaddedBits(m, i, padded, pin);
    var dr, pr := CompareBool(c, 0, kd.b, inner, ds, db), CompareBool(c, i, kp.b, inner, ps, pb);
    CompareBoolInStep(c, sentB, i, kd.b, kp.b, inner, ds, ps, db, pb);
    var dbit := TPSecret(2, dr.0[inner.out].mask.tp);
    var da, pa := St(dr.1.cur, d.a), St(pr.1.cur, p.a);
    var dx, px := CompareArith(c, 0, m, kd.a, dbit, da), CompareArith(c, i, m, kp.a, 0, pa);
    CompareArithInStep(c, m, sentA, i, kd.a, kp.a, dbit, 0, da, pa);
    CombineInStep(c, m, LtzMask(), i, [dx.0, dx.1], [px.0, px.1]);
  }

  lemma GatePreInStep(c: Config, m: nat, sentA: Chan, sentB: Chan, i: nat, kd: FullKeys, kp: FullKeys, inner: Inner,
                      inp: Inputs, w: Wire, g: Gate, seen: nat, dt: Table, pt: Table, d: Full, p: Full)
    requires m > 0 && FullOk(c, 0, kd, d) && FullOk(c, i, kp, p) && InnerOk(inner) && inp.Owned?
    requires TableOk(c, 0, dt) && TableOk(c, i, pt) && (Basic(g) || g.Unary?) && GateOk(g, w)
    requires forall v :: v in Ins(g) ==> v in dt
    requires g.Inp? ==> InputsOk(c, 0, inp, w) && InputsOk(c, i, inp, w)
    requires FullInStep(c, sentA, sentB, i, d, p) && FullKeyOf(c, i, kd, kp) && SameTable(c, i, dt, pt)
    requires FullSent(sentA, sentB, GatePre(c, 0, m, kd, inner, inp, w, g, seen, dt, d).1)
    ensures FullInStep(c, sentA, sentB, i, GatePre(c, 0, m, kd, inner, inp, w, g, seen, dt, d).1,
                                           GatePre(c, i, m, kp, inner, inp, w, g, seen, pt, p).1)
    ensures SameBasic(c, i, GatePre(c, 0, m, kd, inner, inp, w, g, seen, dt, d).0,
                            GatePre(c, i, m, kp, inner, inp, w, g, seen, pt, p).0)
    ensures SameCompare(c, i, GatePre(c, 0, m, kd, inner, inp, w, g, seen, dt, d).0,
                              GatePre(c, i, m, kp, inner, inp, w, g, seen, pt, p).0)
  {
    hide SameShare, KeyOf, InnerOk, ComparePre, BasicPre, TableOk, SameBasic, GateOk;
    if g.Unary? {
      assert g.inp in Ins(g);
      CompareInStep(c, m, sentA, sentB, i, kd, kp, inner, dt[g.inp].mask, pt[g.inp].mask, d, p);
    } else {
      BasicPreInStep(c, m, sentA, i, kd.a, kp.a, inp, inp, w, g, seen, dt, pt, Arith(d), Arith(p));
      BasicIsNoCompare(c, m, kd.a, inp, w, g, seen, dt, Arith(d));
    }
  }

  lemma BasicIsNoCompare(c: Config, m: nat, k: Keys, inp: Inputs, w: Wire, g: Gate, seen: nat, pre: Table, st: St)
    requires m > 0 && StOk(c, 0, k, st) && TableOk(c, 0, pre) && Basic(g) && GateOk(g, w)
    requires forall v :: v in Ins(g) ==> v in pre
    requires g.Inp? ==> InputsOk(c, 0, inp, w)
    ensures !BasicPre(c, 0, m, k, inp, w, g, seen, pre, st).0.Compare?
  {
  }

  lemma SameTablesStep(c: Config, i: nat, dt: Table, pt: Table, w: Wire, dp: Pre, pp: Pre)
    requires SameTables(c, i, dt, pt) && SameBasic(c, i, dp, pp) && SameCompare(c, i, dp, pp)
    ensures SameTables(c, i, dt[w := dp], pt[w := pp])
  {
    hide SameBasic, SameCompare;
  }

  /** The whole pass keeps the dealer and every party in step, comparisons included. */
  lemma {:induction false} RunFullInStep(c: Config, m: nat, sentA: Chan, sentB: Chan, i: nat, kd: FullKeys,
                                         kp: FullKeys, inner: Inner, inp: Inputs, gates: seq<Gate>, order: seq<Wire>,
                                         n: nat, d: Full, p: Full)
    requires m > 0 && FullOk(c, 0, kd, d) && FullOk(c, i, kp, p) && InnerOk(inner) && AllSupported(gates) && inp.Owned?
    requires RunOk(c, 0, gates, inp, order) && RunOk(c, i, gates, inp, order) && n <= |order|
    requires FullInStep(c, sentA, sentB, i, d, p) && FullKeyOf(c, i, kd, kp)
    requires FullSent(sentA, sentB, RunFull(c, 0, m, kd, inner, inp, gates, order, n, d).1)
    ensures FullInStep(c, sentA, sentB, i, RunFull(c, 0, m, kd, inner, inp, gates, order, n, d).1,
                                           RunFull(c, i, m, kp, inner, inp, gates, order, n, p).1)
    ensures SameTables(c, i, RunFull(c, 0, m, kd, inner, inp, gates, order, n, d).0,
                             RunFull(c, i, m, kp, inner, inp, gates, order, n, p).0)
  {
    hide SameBasic, SameCompare, GateOk, GatePre, KeyOf, InStep, Ins, FullOk, FullKeyOf, InnerOk, RunOk;
    if n > 0 {
      GateReady(c, 0, gates, inp, order, n - 1);
      GateReady(c, i, gates, inp, order, n - 1);
      var w, seen := order[n - 1], SeenInputs(gates, order[..n - 1]);
      var (dt, d1) := RunFull(c, 0, m, kd, inner, inp, gates, order, n - 1, d);
      var (pt, p1) := RunFull(c, i, m, kp, inner, inp, gates, order, n - 1, p);
      var dr := GatePre(c, 0, m, kd, inner, inp, w, gates[w], seen, dt, d1);
      var pr := GatePre(c, i, m, kp, inner, inp, w, gates[w], seen, pt, p1);
      assert FullGrows(d1, dr.1);
      RunFullInStep(c, m, sentA, sentB, i, kd, kp, inner, inp, gates, order, n - 1, d, p);
      GatePreInStep(c, m, sentA, sentB, i, kd, kp, inner, inp, w, gates[w], seen, dt, pt, d1, p1);
      SameTablesStep(c, i, dt, pt, w, dr.0, pr.0);
    }
  }
}
