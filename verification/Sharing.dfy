/** Authenticated additive shares, the dealer's view of them, and the expressions the
    two phases build over shares.

    A vector indexed by party id, entry 0 being the dealer's all-zero share, holds one
    sharing.  The whole protocol rests on one fact, proved here once for every share
    expression: evaluating it share by share evaluates it on the secrets, and keeps every
    tag sum equal to the key times the value sum. */
module Sharing {
  import opened ZMod

  /** A party's additive part of the key, of a value and of the value's tag. */
  datatype Auth = Auth(key: int, value: int, tag: int)

  function AuthAdd(m: nat, x: Auth, y: Auth): Auth
    requires m > 0
  {
    Auth(y.key, Add(m, x.value, y.value), Add(m, x.tag, y.tag))
  }

  function AuthScale(m: nat, x: Auth, c: int): Auth
    requires m > 0
  {
    Auth(x.key, Mul(m, x.value, c), Mul(m, x.tag, c))
  }

  /** Subtraction is the addition of the share scaled by -1. */
  function AuthSub(m: nat, x: Auth, y: Auth): Auth
    requires m > 0
  {
    AuthAdd(m, x, AuthScale(m, y, Sub(m, 0, 1)))
  }

  /** Adding a public value: one designated party moves its value, everyone its tag. */
  function AuthPublic(m: nat, x: Auth, c: int, pid: nat, adder: nat): Auth
    requires m > 0
  {
    Auth(x.key, if pid == adder then Add(m, x.value, c) else x.value, Add(m, x.tag, Mul(m, x.key, c)))
  }

  /** The dealer's copy of a sharing: what it gave to each party. */
  datatype TP = TP(key: int, keySh: seq<int>, values: seq<int>, tags: seq<int>)

  predicate TPOk(t: TP, n: nat) {
    |t.keySh| == |t.values| == |t.tags| == n && n > 0
  }

  function TPSecret(m: nat, t: TP): int
    requires m > 0
  {
    SumMod(m, t.values)
  }

  /** Component-wise; entry 0 is never touched, and the keys are the right operand's. */
  function TPAdd(m: nat, x: TP, y: TP): (r: TP)
    requires m > 0 && TPOk(x, |x.values|) && TPOk(y, |x.values|)
    ensures TPOk(r, |x.values|)
  {
    var n := |x.values|;
    TP(y.key,
       seq(n, i requires 0 <= i < n => if i == 0 then x.keySh[0] else y.keySh[i]),
       seq(n, i requires 0 <= i < n => if i == 0 then x.values[0] else Add(m, x.values[i], y.values[i])),
       seq(n, i requires 0 <= i < n => if i == 0 then x.tags[0] else Add(m, x.tags[i], y.tags[i])))
  }

  function TPScale(m: nat, x: TP, c: int): (r: TP)
    requires m > 0 && TPOk(x, |x.values|)
    ensures TPOk(r, |x.values|)
  {
    var n := |x.values|;
    TP(x.key, x.keySh,
       seq(n, i requires 0 <= i < n => if i == 0 then x.values[0] else Mul(m, x.values[i], c)),
       seq(n, i requires 0 <= i < n => if i == 0 then x.tags[0] else Mul(m, x.tags[i], c)))
  }

  /** The share the dealer's copy gives to party i. */
  function PartOf(t: TP, i: nat): Auth
    requires TPOk(t, |t.values|) && i < |t.values|
  {
    Auth(t.keySh[i], t.values[i], t.tags[i])
  }

  // ---- expressions over shares ---------------------------------------------------

  /** An expression over numbered sharings: sums, differences, products with public
      values and additions of public values. */
  datatype Expr =
    | Leaf(k: nat)
    | Plus(l: Expr, r: Expr)
    | Minus(l: Expr, r: Expr)
    | Times(e: Expr, c: int)
    | Public(e: Expr, c: int)

  predicate InRange(e: Expr, n: nat) {
    match e
    case Leaf(k) => k < n
    case Plus(l, r) => InRange(l, n) && InRange(r, n)
    case Minus(l, r) => InRange(l, n) && InRange(r, n)
    case Times(a, _) => InRange(a, n)
    case Public(a, _) => InRange(a, n)
  }

  /** What party `pid` computes from its own shares. */
  function Eval(m: nat, e: Expr, leaves: seq<Auth>, pid: nat): Auth
    requires m > 0 && InRange(e, |leaves|)
  {
    match e
    case Leaf(k) => leaves[k]
    case Plus(l, r) => AuthAdd(m, Eval(m, l, leaves, pid), Eval(m, r, leaves, pid))
    case Minus(l, r) => AuthSub(m, Eval(m, l, leaves, pid), Eval(m, r, leaves, pid))
    case Times(a, c) => AuthScale(m, Eval(m, a, leaves, pid), c)
    case Public(a, c) => AuthPublic(m, Eval(m, a, leaves, pid), c, pid, 1)
  }

  predicate Linear(e: Expr) {
    match e
    case Leaf(_) => true
    case Plus(l, r) => Linear(l) && Linear(r)
    case Minus(l, r) => Linear(l) && Linear(r)
    case Times(a, _) => Linear(a)
    case Public(_, _) => false
  }

  /** What the dealer computes from its copies (no public values occur there). */
  function TPEval(m: nat, e: Expr, leaves: seq<TP>, n: nat): (t: TP)
    requires m > 0 && InRange(e, |leaves|) && Linear(e)
    requires forall k :: 0 <= k < |leaves| ==> TPOk(leaves[k], n)
    ensures TPOk(t, n)
  {
    match e
    case Leaf(k) => leaves[k]
    case Plus(l, r) => TPAdd(m, TPEval(m, l, leaves, n), TPEval(m, r, leaves, n))
    case Minus(l, r) =>
      TPAdd(m, TPEval(m, l, leaves, n), TPScale(m, TPEval(m, r, leaves, n), Sub(m, 0, 1)))
    case Times(a, c) => TPScale(m, TPEval(m, a, leaves, n), c)
  }

  /** The same expression on the secrets, over the integers. */
  function Secret(e: Expr, ss: seq<int>): int
    requires InRange(e, |ss|)
  {
    match e
    case Leaf(k) => ss[k]
    case Plus(l, r) => Secret(l, ss) + Secret(r, ss)
    case Minus(l, r) => Secret(l, ss) - Secret(r, ss)
    case Times(a, c) => Secret(a, ss) * c
    case Public(a, c) => Secret(a, ss) + c
  }

  // ---- what a good sharing is --------------------------------------------------------

  function Values(js: seq<Auth>): seq<int> {
    seq(|js|, i requires 0 <= i < |js| => js[i].value)
  }

  function Tags(js: seq<Auth>): seq<int> {
    seq(|js|, i requires 0 <= i < |js| => js[i].tag)
  }

  /** The key shares add up to the key, and the dealer has none. */
  ghost predicate KeysOk(m: nat, ks: seq<int>, key: int)
    requires m > 0
  {
    |ks| > 1 && ks[0] == 0 && Cong(m, Sum(ks), key)
  }

  /** `js` shares `s` under the key: values add up to s and tags to key * s. */
  ghost predicate Shares(m: nat, js: seq<Auth>, ks: seq<int>, key: int, s: int)
    requires m > 0
  {
    && |js| == |ks| > 1
    && (forall i :: 0 <= i < |js| ==> js[i].key == ks[i])
    && js[0].value == 0 && js[0].tag == 0
    && Cong(m, Sum(Values(js)), s)
    && Cong(m, Sum(Tags(js)), key * s)
  }

  lemma SharesCong(m: nat, js: seq<Auth>, ks: seq<int>, key: int, s: int, t: int)
    requires m > 0 && Shares(m, js, ks, key, s) && Cong(m, s, t)
    ensures Shares(m, js, ks, key, t)
  {
    CongScale(m, s, t, key);
  }

  lemma SharesAdd(m: nat, xs: seq<Auth>, ys: seq<Auth>, zs: seq<Auth>, ks: seq<int>, key: int, s: int, t: int)
    requires m > 0 && Shares(m, xs, ks, key, s) && Shares(m, ys, ks, key, t) && |zs| == |xs|
    requires forall i :: 0 <= i < |zs| ==> zs[i] == AuthAdd(m, xs[i], ys[i])
    ensures Shares(m, zs, ks, key, s + t)
  {
    SumAdded(m, Values(xs), Values(ys), Values(zs));
    SumAdded(m, Tags(xs), Tags(ys), Tags(zs));
    CongAdd(m, Sum(Values(xs)), s, Sum(Values(ys)), t);
    CongAdd(m, Sum(Tags(xs)), key * s, Sum(Tags(ys)), key * t);
    assert key * (s + t) == key * s + key * t;
    ModUnique(m, 0, 0, 0);
  }

  lemma SharesScale(m: nat, xs: seq<Auth>, zs: seq<Auth>, ks: seq<int>, key: int, s: int, c: int)
    requires m > 0 && Shares(m, xs, ks, key, s) && |zs| == |xs|
    requires forall i :: 0 <= i < |zs| ==> zs[i] == AuthScale(m, xs[i], c)
    ensures Shares(m, zs, ks, key, s * c)
  {
    SumScaled(m, Values(xs), c, Values(zs));
    SumScaled(m, Tags(xs), c, Tags(zs));
    CongScale(m, Sum(Values(xs)), s, c);
    CongScale(m, Sum(Tags(xs)), key * s, c);
    assert key * s * c == key * (s * c);
    assert Mul(m, 0, c) == 0 by {
      assert 0 * c == 0;
      ModUnique(m, 0, 0, 0);
    }
  }

  lemma SharesSub(m: nat, xs: seq<Auth>, ys: seq<Auth>, zs: seq<Auth>, ks: seq<int>, key: int, s: int, t: int)
    requires m > 0 && Shares(m, xs, ks, key, s) && Shares(m, ys, ks, key, t) && |zs| == |xs|
    requires forall i :: 0 <= i < |zs| ==> zs[i] == AuthSub(m, xs[i], ys[i])
    ensures Shares(m, zs, ks, key, s - t)
  {
    var minus := Sub(m, 0, 1);
    var ns := seq(|ys|, i requires 0 <= i < |ys| => AuthScale(m, ys[i], minus));
    SharesScale(m, ys, ns, ks, key, t, minus);
    SharesAdd(m, xs, ns, zs, ks, key, s, t * minus);
    CongMod(m, -1);
    CongScale(m, minus, -1, t);
    CongAdd(m, s, s, t * minus, t * -1);
    SharesCong(m, zs, ks, key, s + t * minus, s - t);
  }

  lemma SharesPublic(m: nat, xs: seq<Auth>, zs: seq<Auth>, ks: seq<int>, key: int, s: int, c: int, adder: nat)
    requires m > 0 && KeysOk(m, ks, key) && Shares(m, xs, ks, key, s) && |zs| == |xs| && 0 < adder < |xs|
    requires forall i :: 0 <= i < |zs| ==> zs[i] == AuthPublic(m, xs[i], c, i, adder)
    ensures Shares(m, zs, ks, key, s + c)
  {
    PublicValues(m, xs, zs, c, adder);
    PublicTags(m, xs, zs, ks, c);
    CongAdd(m, Sum(Values(xs)), s, c, c);
    CongScale(m, Sum(ks), key, c);
    CongAdd(m, Sum(Tags(xs)), key * s, Sum(ks) * c, key * c);
    assert key * (s + c) == key * s + key * c;
  }

  lemma {:induction false} PublicValues(m: nat, xs: seq<Auth>, zs: seq<Auth>, c: int, adder: nat)
    requires m > 0 && |zs| == |xs|
    requires forall i :: 0 <= i < |zs| ==> zs[i] == AuthPublic(m, xs[i], c, i, adder)
    ensures Cong(m, Sum(Values(zs)), Sum(Values(xs)) + if adder < |xs| then c else 0)
  {
    if xs != [] {
      var n := |xs| - 1;
      PublicValues(m, xs[..n], zs[..n], c, adder);
      assert Values(xs)[..n] == Values(xs[..n]) && Values(zs)[..n] == Values(zs[..n]);
      CongMod(m, xs[n].value + c);
      var d := if adder == n then xs[n].value + c else xs[n].value;
      CongAdd(m, Sum(Values(zs[..n])), Sum(Values(xs[..n])) + (if adder < n then c else 0), zs[n].value, d);
    }
  }

  lemma {:induction false} PublicTags(m: nat, xs: seq<Auth>, zs: seq<Auth>, ks: seq<int>, c: int)
    requires m > 0 && |zs| == |xs| == |ks|
    requires forall i :: 0 <= i < |zs| ==> xs[i].key == ks[i]
    requires forall i :: 0 <= i < |zs| ==> zs[i].tag == Add(m, xs[i].tag, Mul(m, xs[i].key, c))
    ensures Cong(m, Sum(Tags(zs)), Sum(Tags(xs)) + Sum(ks) * c)
    ensures |xs| > 0 && ks[0] == 0 && xs[0].tag == 0 ==> zs[0].tag == 0
  {
    var kc := seq(|ks|, i requires 0 <= i < |ks| => Mul(m, ks[i], c));
    SumScaled(m, ks, c, kc);
    SumAdded(m, Tags(xs), kc, Tags(zs));
    CongAdd(m, Sum(Tags(xs)), Sum(Tags(xs)), Sum(kc), Sum(ks) * c);
    if |xs| > 0 && ks[0] == 0 && xs[0].tag == 0 {
      assert 0 * c == 0;
      ModUnique(m, 0, 0, 0);
    }
  }

  /** Column k of the parties' leaf tables. */
  function Column(table: seq<seq<Auth>>, k: nat): (js: seq<Auth>)
    requires forall i :: 0 <= i < |table| ==> k < |table[i]|
    ensures |js| == |table| && forall i :: 0 <= i < |js| ==> js[i] == table[i][k]
  {
    seq(|table|, i requires 0 <= i < |table| => table[i][k])
  }

  /** All parties evaluating the same expression. */
  function EvalJoint(m: nat, e: Expr, table: seq<seq<Auth>>): (js: seq<Auth>)
    requires m > 0 && forall i :: 0 <= i < |table| ==> InRange(e, |table[i]|)
    ensures |js| == |table| && forall i :: 0 <= i < |js| ==> js[i] == Eval(m, e, table[i], i)
  {
    seq(|table|, i requires 0 <= i < |table| => Eval(m, e, table[i], i))
  }

  /** Share-wise evaluation evaluates the secrets and keeps the tags right. */
  lemma {:induction false} Homomorphism(m: nat, e: Expr, table: seq<seq<Auth>>, ks: seq<int>, key: int, ss: seq<int>)
    requires m > 0 && KeysOk(m, ks, key) && |table| == |ks| && InRange(e, |ss|)
    requires forall i :: 0 <= i < |table| ==> |table[i]| == |ss|
    requires forall k :: 0 <= k < |ss| ==> Shares(m, Column(table, k), ks, key, ss[k])
    ensures Shares(m, EvalJoint(m, e, table), ks, key, Secret(e, ss))
  {
    hide Shares, Cong, Sum, AuthAdd, AuthSub, AuthScale, AuthPublic;
    var zs := EvalJoint(m, e, table);
    match e
    case Leaf(k) =>
      assert zs == Column(table, k);
    case Plus(l, r) =>
      Homomorphism(m, l, table, ks, key, ss);
      Homomorphism(m, r, table, ks, key, ss);
      SharesAdd(m, EvalJoint(m, l, table), EvalJoint(m, r, table), zs, ks, key, Secret(l, ss), Secret(r, ss));
    case Minus(l, r) =>
      Homomorphism(m, l, table, ks, key, ss);
      Homomorphism(m, r, table, ks, key, ss);
      SharesSub(m, EvalJoint(m, l, table), EvalJoint(m, r, table), zs, ks, key, Secret(l, ss), Secret(r, ss));
    case Times(a, c) =>
      Homomorphism(m, a, table, ks, key, ss);
      SharesScale(m, EvalJoint(m, a, table), zs, ks, key, Secret(a, ss), c);
    case Public(a, c) =>
      Homomorphism(m, a, table, ks, key, ss);
      SharesPublic(m, EvalJoint(m, a, table), zs, ks, key, Secret(a, ss), c, 1);
  }

  /** The dealer's copy stays in step with the parties: entry i of what it computes is what
      party i computes from its own shares. */
  lemma {:induction false} DealerInStep(m: nat, e: Expr, copies: seq<TP>, leaves: seq<Auth>, n: nat, i: nat)
    requires m > 0 && InRange(e, |copies|) && Linear(e) && |leaves| == |copies| && 0 < i < n
    requires forall k :: 0 <= k < |copies| ==> TPOk(copies[k], n) && leaves[k] == PartOf(copies[k], i)
    ensures Eval(m, e, leaves, i) == PartOf(TPEval(m, e, copies, n), i)
  {
    match e
    case Leaf(_) =>
    case Plus(l, r) =>
      DealerInStep(m, l, copies, leaves, n, i);
      DealerInStep(m, r, copies, leaves, n, i);
    case Minus(l, r) =>
      DealerInStep(m, l, copies, leaves, n, i);
      DealerInStep(m, r, copies, leaves, n, i);
    case Times(a, _) =>
      DealerInStep(m, a, copies, leaves, n, i);
  }
}
