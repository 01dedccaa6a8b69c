/** What the parties open for an interactive gate, and why the opened value is the masked
    product: with public inputs v and masks d, the share each party computes is a share of
    the output mask plus the product of the unmasked inputs. */
module Opening {
  import opened Circuits
  import opened Sharing
  import opened ZMod
  import opened Offline

  /** The share expression of an interactive gate.  Leaves: the output mask, the shared
      products in the order they were dealt, the input masks.  `v`: the public inputs. */
  function QExpr(m: nat, g: Gate, v: seq<int>): (e: Expr)
    requires m > 0 && Basic(g) && Interactive(g) && |v| == |Ins(g)| && (g.Simd? ==> |g.ins1| == |g.ins2|)
  {
    match g
    case Mul2(_, _) => Mul2Expr(m, v[0], v[1])
    case Mul3(_, _, _) => Mul3Expr(m, v[0], v[1], v[2])
    case Mul4(_, _, _, _) => Mul4Expr(m, v[0], v[1], v[2], v[3])
    case Simd(_, xs, _) => DotExpr(m, |xs|, v, |xs|)
    case _ => Leaf(0)
  }

  // Expressions are put together by the next three functions; the contracts say what each
  // adds to the range and to the secret.

  function Sum2(l: Expr, r: Expr): (e: Expr)
    ensures forall n :: InRange(l, n) && InRange(r, n) ==> InRange(e, n)
    ensures forall ss: seq<int> :: InRange(l, |ss|) && InRange(r, |ss|) ==>
      InRange(e, |ss|) && Secret(e, ss) == Secret(l, ss) + Secret(r, ss)
  {
    Plus(l, r)
  }

  function Diff(l: Expr, r: Expr): (e: Expr)
    ensures forall n :: InRange(l, n) && InRange(r, n) ==> InRange(e, n)
    ensures forall ss: seq<int> :: InRange(l, |ss|) && InRange(r, |ss|) ==>
      InRange(e, |ss|) && Secret(e, ss) == Secret(l, ss) - Secret(r, ss)
  {
    Minus(l, r)
  }

  function Scaled(s: int, xs: seq<int>): int
    requires |xs| <= 3
  {
    if |xs| == 0 then s else if |xs| == 1 then s * xs[0]
    else if |xs| == 2 then s * xs[0] * xs[1] else s * xs[0] * xs[1] * xs[2]
  }

  /** Leaf k times up to three public values, multiplied in one after the other. */
  function Term(k: nat, xs: seq<int>): (e: Expr)
    requires |xs| <= 3
    ensures forall n :: k < n ==> InRange(e, n)
    ensures forall ss: seq<int> :: k < |ss| ==> InRange(e, |ss|) && Secret(e, ss) == Scaled(ss[k], xs)
  {
    if xs == [] then Leaf(k) else Times(Term(k, xs[..|xs| - 1]), xs[|xs| - 1])
  }

  function Mul2Expr(m: nat, a: int, b: int): (e: Expr)
    requires m > 0
    ensures InRange(e, 4)
  {
    var q := Diff(Diff(Sum2(Leaf(0), Leaf(1)), Term(2, [b])), Term(3, [a]));
    Public(q, Mul(m, a, b))
  }

  function Mul3Expr(m: nat, a: int, b: int, c: int): (e: Expr)
    requires m > 0
    ensures InRange(e, 8)
  {
    var twos := Sum2(Sum2(Term(3, [a]), Term(2, [b])), Term(1, [c]));
    var ones := Sum2(Sum2(Term(7, [a, b]), Term(6, [a, c])), Term(5, [b, c]));
    var q := Diff(Sum2(Diff(Leaf(0), Leaf(4)), twos), ones);
    Public(q, Mul(m, Mul(m, a, b), c))
  }

  function Ones(a: int, b: int, c: int, d: int): (e: Expr)
    ensures forall n :: 16 <= n ==> InRange(e, n)
  {
    Sum2(Sum2(Sum2(Term(15, [a, b, c]), Term(14, [a, b, d])), Term(13, [a, c, d])), Term(12, [b, c, d]))
  }

  function Twos(a: int, b: int, c: int, d: int): (e: Expr)
    ensures forall n :: 16 <= n ==> InRange(e, n)
  {
    Sum2(Sum2(Sum2(Sum2(Sum2(Term(6, [a, b]), Term(5, [a, c])), Term(4, [a, d])), Term(3, [b, c])),
         Term(2, [b, d])), Term(1, [c, d]))
  }

  function Threes(a: int, b: int, c: int, d: int): (e: Expr)
    ensures forall n :: 16 <= n ==> InRange(e, n)
  {
    Sum2(Sum2(Sum2(Term(10, [a]), Term(9, [b])), Term(8, [c])), Term(7, [d]))
  }

  function Mul4Expr(m: nat, a: int, b: int, c: int, d: int): (e: Expr)
    requires m > 0
    ensures InRange(e, 16)
  {
    var q := Diff(Sum2(Diff(Leaf(0), Ones(a, b, c, d)), Twos(a, b, c, d)), Threes(a, b, c, d));
    Public(Sum2(q, Leaf(11)), Mul(m, Mul(m, Mul(m, a, b), c), d))
  }

  function Cross(n: nat, i: nat, j: nat, x: int, y: int): (e: Expr)
    requires i < n && j < n
    ensures InRange(e, n)
  {
    var l, r := Times(Leaf(i), y), Times(Leaf(j), x);
    assert InRange(l, n) && InRange(r, n);
    Plus(l, r)
  }

  /** The first k terms of a scalar product of length n. */
  function DotExpr(m: nat, n: nat, v: seq<int>, k: nat): (e: Expr)
    requires m > 0 && |v| == 2 * n && k <= n
    ensures InRange(e, 2 + 2 * n)
  {
    if k == 0 then Plus(Leaf(0), Leaf(1)) else
      var i := k - 1;
      var q := Minus(DotExpr(m, n, v, i), Cross(2 + 2 * n, 2 + i, 2 + n + i, v[i], v[n + i]));
      assert InRange(q, 2 + 2 * n);
      Public(q, Mul(m, v[i], v[n + i]))
  }

  // ---- the opened secret -------------------------------------------------------------------

  lemma {:induction false} SecretCong(m: nat, e: Expr, ss: seq<int>, tt: seq<int>)
    requires m > 0 && InRange(e, |ss|) && |ss| == |tt|
    requires forall k :: 0 <= k < |ss| ==> Cong(m, ss[k], tt[k])
    ensures Cong(m, Secret(e, ss), Secret(e, tt))
  {
    match e
    case Leaf(_) =>
    case Plus(l, r) =>
      SecretCong(m, l, ss, tt);
      SecretCong(m, r, ss, tt);
      CongAdd(m, Secret(l, ss), Secret(l, tt), Secret(r, ss), Secret(r, tt));
    case Minus(l, r) =>
      SecretCong(m, l, ss, tt);
      SecretCong(m, r, ss, tt);
      CongSub(m, Secret(l, ss), Secret(l, tt), Secret(r, ss), Secret(r, tt));
    case Times(a, c) =>
      SecretCong(m, a, ss, tt);
      CongScale(m, Secret(a, ss), Secret(a, tt), c);
    case Public(a, c) =>
      SecretCong(m, a, ss, tt);
      CongAdd(m, Secret(a, ss), Secret(a, tt), c, c);
  }

  lemma MulCong3(m: nat, a: int, b: int, c: int)
    requires m > 0
    ensures Cong(m, Mul(m, Mul(m, a, b), c), a * b * c)
  {
    CongMod(m, a * b);
    CongScale(m, Mul(m, a, b), a * b, c);
    CongMod(m, Mul(m, a, b) * c);
  }

  lemma MulCong4(m: nat, a: int, b: int, c: int, d: int)
    requires m > 0
    ensures Cong(m, Mul(m, Mul(m, Mul(m, a, b), c), d), a * b * c * d)
  {
    MulCong3(m, a, b, c);
    CongScale(m, Mul(m, Mul(m, a, b), c), a * b * c, d);
    CongMod(m, Mul(m, Mul(m, a, b), c) * d);
  }

  /** Two factors. */
  lemma Mul2Secret(m: nat, o: int, a: int, b: int, x: int, y: int)
    requires m > 0
    ensures Cong(m, Secret(Mul2Expr(m, x, y), [o, Mul(m, a, b), a, b]), o + (x - a) * (y - b))
  {
    var e := Mul2Expr(m, x, y);
    var tt := [o, a * b, a, b];
    CongMod(m, a * b);
    SecretCong(m, e, [o, Mul(m, a, b), a, b], tt);
    var rest := o + a * b - a * y - b * x;
    assert Secret(e, tt) == rest + Mul(m, x, y);
    CongMod(m, x * y);
    CongAdd(m, rest, rest, Mul(m, x, y), x * y);
    assert rest + x * y == o + (x - a) * (y - b);
  }

  lemma Mul3Identity(o: int, a: int, b: int, c: int, x: int, y: int, z: int)
    ensures o - a * b * c + ((b * c) * x + (a * c) * y + (a * b) * z)
              - (c * x * y + b * x * z + a * y * z) + x * y * z
            == o + (x - a) * (y - b) * (z - c)
  {
    assert (x - a) * (y - b) == x * y - x * b - a * y + a * b;
  }

  /** Three factors. */
  lemma Mul3Secret(m: nat, o: int, a: int, b: int, c: int, x: int, y: int, z: int)
    requires m > 0
    ensures Cong(m, Secret(Mul3Expr(m, x, y, z), [o] + Products(m, Mul3(0, 0, 0), [a, b, c]) + [a, b, c]),
                 o + (x - a) * (y - b) * (z - c))
  {
    hide Secret, InRange, Mul3Expr;
    var e := Mul3Expr(m, x, y, z);
    var tt := [o, a * b, a * c, b * c, a * b * c, a, b, c];
    CongMod(m, a * b);
    CongMod(m, a * c);
    CongMod(m, b * c);
    MulCong3(m, a, b, c);
    SecretCong(m, e, [o] + Products(m, Mul3(0, 0, 0), [a, b, c]) + [a, b, c], tt);
    Mul3Value(m, o, a, b, c, x, y, z, tt);
    MulCong3(m, x, y, z);
    var rest := o - a * b * c + ((b * c) * x + (a * c) * y + (a * b) * z)
                - (c * x * y + b * x * z + a * y * z);
    CongAdd(m, rest, rest, Mul(m, Mul(m, x, y), z), x * y * z);
    Mul3Identity(o, a, b, c, x, y, z);
  }

  lemma Mul3Value(m: nat, o: int, a: int, b: int, c: int, x: int, y: int, z: int, tt: seq<int>)
    requires m > 0 && tt == [o, a * b, a * c, b * c, a * b * c, a, b, c]
    ensures Secret(Mul3Expr(m, x, y, z), tt)
         == o - a * b * c + ((b * c) * x + (a * c) * y + (a * b) * z)
            - (c * x * y + b * x * z + a * y * z) + Mul(m, Mul(m, x, y), z)
  {
    assert Secret(Leaf(0), tt) == o && Secret(Leaf(4), tt) == a * b * c;
  }

  // Expanding (x - a) * (y - b) * (z - c) * (w - d) one factor at a time.

  lemma Spread(t1: int, t2: int, t3: int, t4: int, t5: int, t6: int, t7: int, t8: int, w: int)
    ensures (t1 - t2 - t3 + t4 - t5 + t6 + t7 - t8) * w
         == t1 * w - t2 * w - t3 * w + t4 * w - t5 * w + t6 * w + t7 * w - t8 * w
  {
  }

  lemma TimesW(p: int, a: int, b: int, c: int, x: int, y: int, z: int, w: int)
    requires p == x * y * z - c * x * y - b * x * z + (b * c) * x - a * y * z + (a * c) * y + (a * b) * z - a * b * c
    ensures p * w
      == x * y * z * w - c * x * y * w - b * x * z * w + (b * c) * x * w - a * y * z * w + (a * c) * y * w
        + (a * b) * z * w - (a * b * c) * w
  {
    Spread(x * y * z, c * x * y, b * x * z, (b * c) * x, a * y * z, (a * c) * y, (a * b) * z, a * b * c, w);
  }

  lemma Front(t: int, u: int, v: int, s: int)
    ensures t * u * v * s == (t * s) * u * v
  {
    assert t * u * v * s == t * s * (u * v);
    assert (t * s) * u * v == t * s * (u * v);
  }

  lemma Pair(t: int, u: int, v: int, s: int)
    ensures (t * u) * v * s == (t * u * s) * v
  {
  }

  lemma Head(t: int, u: int, v: int, s: int)
    ensures t * u * v * s == s * t * u * v
  {
    Front(t, u, v, s);
  }

  lemma TimesD(p: int, a: int, b: int, c: int, x: int, y: int, z: int, d: int)
    requires p == x * y * z - c * x * y - b * x * z + (b * c) * x - a * y * z + (a * c) * y + (a * b) * z - a * b * c
    ensures p * d
      == d * x * y * z - (c * d) * x * y - (b * d) * x * z + (b * c * d) * x - (a * d) * y * z + (a * c * d) * y
        + (a * b * d) * z - a * b * c * d
  {
    TimesW(p, a, b, c, x, y, z, d);
    Head(x, y, z, d);
    Front(c, x, y, d);
    Front(b, x, z, d);
    Front(a, y, z, d);
    Pair(b, c, x, d);
    Pair(a, c, y, d);
    Pair(a, b, z, d);
  }

  /** The sums of products with one, two and three masks. */
  function Poly1(a: int, b: int, c: int, d: int, x: int, y: int, z: int, w: int): int {
    d * x * y * z + c * x * y * w + b * x * z * w + a * y * z * w
  }

  function Poly2(a: int, b: int, c: int, d: int, x: int, y: int, z: int, w: int): int {
    (c * d) * x * y + (b * d) * x * z + (b * c) * x * w + (a * d) * y * z + (a * c) * y * w + (a * b) * z * w
  }

  function Poly3(a: int, b: int, c: int, d: int, x: int, y: int, z: int, w: int): int {
    (b * c * d) * x + (a * c * d) * y + (a * b * d) * z + (a * b * c) * w
  }

  lemma Mul4Identity(a: int, b: int, c: int, d: int, x: int, y: int, z: int, w: int)
    ensures x * y * z * w - Poly1(a, b, c, d, x, y, z, w) + Poly2(a, b, c, d, x, y, z, w)
              - Poly3(a, b, c, d, x, y, z, w) + a * b * c * d
            == (x - a) * (y - b) * (z - c) * (w - d)
  {
    var p := (x - a) * (y - b) * (z - c);
    Mul3Identity(0, a, b, c, x, y, z);
    TimesW(p, a, b, c, x, y, z, w);
    TimesD(p, a, b, c, x, y, z, d);
    assert p * (w - d) == p * w - p * d;
  }

  lemma Closes(m: nat, s: int, rest: int, pub: int, prod: int, target: int)
    requires m > 0 && s == rest + pub && Cong(m, pub, prod) && rest + prod == target
    ensures Cong(m, s, target)
  {
    CongAdd(m, rest, rest, pub, prod);
  }

  lemma Mul4Split(m: nat, o: int, a: int, b: int, c: int, d: int, x: int, y: int, z: int, w: int, s: int, t: int)
    returns (rest: int, pub: int, prod: int)
    requires m > 0
    requires s == Secret(Mul4Expr(m, x, y, z, w), Mul4Plain(o, a, b, c, d))
    requires t == o + (x - a) * (y - b) * (z - c) * (w - d)
    ensures s == rest + pub && rest + prod == t && Cong(m, pub, prod)
  {
    rest := o - Poly1(a, b, c, d, x, y, z, w) + Poly2(a, b, c, d, x, y, z, w)
            - Poly3(a, b, c, d, x, y, z, w) + a * b * c * d;
    pub, prod := Mul(m, Mul(m, Mul(m, x, y), z), w), x * y * z * w;
    assert rest + prod == t by {
      Mul4Identity(a, b, c, d, x, y, z, w);
    }
    assert s == rest + pub by {
      Mul4Value(m, o, a, b, c, d, x, y, z, w);
    }
    assert Cong(m, pub, prod) by {
      MulCong4(m, x, y, z, w);
    }
  }

  lemma Mul4PlainSecret(m: nat, o: int, a: int, b: int, c: int, d: int, x: int, y: int, z: int, w: int, s: int, t: int)
    requires m > 0
    requires s == Secret(Mul4Expr(m, x, y, z, w), Mul4Plain(o, a, b, c, d))
    requires t == o + (x - a) * (y - b) * (z - c) * (w - d)
    ensures Cong(m, s, t)
  {
    var rest, pub, prod := Mul4Split(m, o, a, b, c, d, x, y, z, w, s, t);
    Closes(m, s, rest, pub, prod, t);
  }

  /** Four factors. */
  lemma Mul4Secret(m: nat, o: int, a: int, b: int, c: int, d: int, x: int, y: int, z: int, w: int, ss: seq<int>, t: int)
    requires m > 0
    requires ss == [o] + Products(m, Mul4(0, 0, 0, 0), [a, b, c, d]) + [a, b, c, d]
    requires t == o + (x - a) * (y - b) * (z - c) * (w - d)
    ensures |ss| == 16 && Cong(m, Secret(Mul4Expr(m, x, y, z, w), ss), t)
  {
    var e, tt := Mul4Expr(m, x, y, z, w), Mul4Plain(o, a, b, c, d);
    assert |ss| == 16;
    assert Cong(m, Secret(e, ss), Secret(e, tt)) by {
      Mul4Leaves(m, o, a, b, c, d);
      SecretCong(m, e, ss, tt);
    }
    Mul4PlainSecret(m, o, a, b, c, d, x, y, z, w, Secret(e, tt), t);
  }

  function Mul4Plain(o: int, a: int, b: int, c: int, d: int): (tt: seq<int>)
    ensures |tt| == 16
  {
    [o, a * b, a * c, a * d, b * c, b * d, c * d, a * b * c, a * b * d, a * c * d, b * c * d,
     a * b * c * d, a, b, c, d]
  }

  lemma Mul4Leaves(m: nat, o: int, a: int, b: int, c: int, d: int)
    requires m > 0
    ensures var ss, tt := [o] + Products(m, Mul4(0, 0, 0, 0), [a, b, c, d]) + [a, b, c, d], Mul4Plain(o, a, b, c, d);
      |ss| == |tt| && forall k :: 0 <= k < |ss| ==> Cong(m, ss[k], tt[k])
  {
    CongMod(m, a * b);
    CongMod(m, a * c);
    CongMod(m, a * d);
    CongMod(m, b * c);
    CongMod(m, b * d);
    CongMod(m, c * d);
    MulCong3(m, a, b, c);
    MulCong3(m, a, b, d);
    MulCong3(m, a, c, d);
    MulCong3(m, b, c, d);
    MulCong4(m, a, b, c, d);
  }

  lemma OnesSecret(o: int, a: int, b: int, c: int, d: int, x: int, y: int, z: int, w: int)
    ensures Secret(Ones(x, y, z, w), Mul4Plain(o, a, b, c, d)) == Poly1(a, b, c, d, x, y, z, w)
  {
  }

  lemma TwosSecret(o: int, a: int, b: int, c: int, d: int, x: int, y: int, z: int, w: int)
    ensures Secret(Twos(x, y, z, w), Mul4Plain(o, a, b, c, d)) == Poly2(a, b, c, d, x, y, z, w)
  {
  }

  lemma ThreesSecret(o: int, a: int, b: int, c: int, d: int, x: int, y: int, z: int, w: int)
    ensures Secret(Threes(x, y, z, w), Mul4Plain(o, a, b, c, d)) == Poly3(a, b, c, d, x, y, z, w)
  {
  }

  lemma Mul4Value(m: nat, o: int, a: int, b: int, c: int, d: int, x: int, y: int, z: int, w: int)
    requires m > 0
    ensures Secret(Mul4Expr(m, x, y, z, w), Mul4Plain(o, a, b, c, d))
         == o - Poly1(a, b, c, d, x, y, z, w) + Poly2(a, b, c, d, x, y, z, w) - Poly3(a, b, c, d, x, y, z, w)
            + a * b * c * d + Mul(m, Mul(m, Mul(m, x, y), z), w)
  {
    var tt := Mul4Plain(o, a, b, c, d);
    OnesSecret(o, a, b, c, d, x, y, z, w);
    TwosSecret(o, a, b, c, d, x, y, z, w);
    ThreesSecret(o, a, b, c, d, x, y, z, w);
    assert Secret(Leaf(0), tt) == o && Secret(Leaf(11), tt) == a * b * c * d;
  }

  // ---- scalar products -------------------------------------------------------------------------

  /** The integer scalar product of the first k pairs (i, n + i). */
  function DotInt(u: seq<int>, n: nat, k: nat): int
    requires |u| == 2 * n && k <= n
  {
    if k == 0 then 0 else DotInt(u, n, k - 1) + u[k - 1] * u[n + k - 1]
  }

  function Unmasked(v: seq<int>, d: seq<int>): (u: seq<int>)
    requires |v| == |d|
    ensures |u| == |v| && forall i :: 0 <= i < |u| ==> u[i] == v[i] - d[i]
  {
    seq(|v|, i requires 0 <= i < |v| => v[i] - d[i])
  }

  lemma {:induction false} DotMasksSum(m: nat, d: seq<int>, n: nat, k: nat)
    requires m > 0 && |d| == 2 * n && k <= n
    ensures Cong(m, DotMasks(m, d[..n][..k], d[n..][..k]), DotInt(d, n, k))
  {
    if k > 0 {
      var xs, ys := d[..n][..k], d[n..][..k];
      DotMasksSum(m, d, n, k - 1);
      assert xs[..k - 1] == d[..n][..k - 1] && ys[..k - 1] == d[n..][..k - 1];
      var s := DotMasks(m, xs[..k - 1], ys[..k - 1]);
      CongMod(m, d[k - 1] * d[n + k - 1]);
      CongAdd(m, s, DotInt(d, n, k - 1), Mul(m, d[k - 1], d[n + k - 1]), d[k - 1] * d[n + k - 1]);
      CongMod(m, s + Mul(m, d[k - 1], d[n + k - 1]));
    }
  }

  lemma DotStep(m: nat, s: int, o: int, uu: int, dd: int, x: int, y: int, a: int, b: int, u: int, e: int,
                s': int, t': int)
    requires m > 0 && Cong(m, s, o + uu - dd) && u == (x - a) * (y - b) && e == a * b
    requires s' == s - (a * y + b * x) + Mul(m, x, y) && t' == o + (uu + u) - (dd + e)
    ensures Cong(m, s', t')
  {
    var r := -(a * y + b * x);
    assert r + x * y == u - e;
    CongMod(m, x * y);
    CongAdd(m, r, r, Mul(m, x, y), x * y);
    CongAdd(m, s, o + uu - dd, r + Mul(m, x, y), u - e);
  }

  /** What `DotExpr` computes on the secrets. */
  function DotValue(m: nat, o: int, v: seq<int>, d: seq<int>, n: nat, k: nat): int
    requires m > 0 && |v| == |d| == 2 * n && k <= n
  {
    if k == 0 then o else
      var i := k - 1;
      DotValue(m, o, v, d, n, i) - (d[i] * v[n + i] + d[n + i] * v[i]) + Mul(m, v[i], v[n + i])
  }

  lemma CrossSecret(ss: seq<int>, i: nat, j: nat, x: int, y: int)
    requires i < |ss| && j < |ss|
    ensures Secret(Cross(|ss|, i, j, x, y), ss) == ss[i] * y + ss[j] * x
  {
    assert Secret(Times(Leaf(i), y), ss) == ss[i] * y;
    assert Secret(Times(Leaf(j), x), ss) == ss[j] * x;
  }

  lemma {:induction false} DotExprValue(m: nat, o: int, p: int, v: seq<int>, d: seq<int>, n: nat, k: nat)
    requires m > 0 && |v| == |d| == 2 * n && k <= n
    ensures Secret(DotExpr(m, n, v, k), [o, p] + d) == DotValue(m, o + p, v, d, n, k)
  {
    hide Mul, Cross;
    var ss := [o, p] + d;
    if k == 0 {
      assert Secret(Leaf(0), ss) == o && Secret(Leaf(1), ss) == p;
    } else {
      var i := k - 1;
      DotExprValue(m, o, p, v, d, n, i);
      CrossSecret(ss, 2 + i, 2 + n + i, v[i], v[n + i]);
    }
  }

  lemma {:induction false} DotSecret(m: nat, o: int, v: seq<int>, d: seq<int>, u: seq<int>, n: nat, k: nat)
    requires m > 0 && |v| == |d| == 2 * n && k <= n && u == Unmasked(v, d)
    ensures Cong(m, DotValue(m, o, v, d, n, k), o + DotInt(u, n, k) - DotInt(d, n, k))
  {
    if k > 0 {
      hide Mul, Cong;
      var i := k - 1;
      DotSecret(m, o, v, d, u, n, i);
      DotStep(m, DotValue(m, o, v, d, n, i), o, DotInt(u, n, i), DotInt(d, n, i), v[i], v[n + i], d[i], d[n + i],
              u[i] * u[n + i], d[i] * d[n + i], DotValue(m, o, v, d, n, k), o + DotInt(u, n, k) - DotInt(d, n, k));
    }
  }

  /** The scalar product of plain values, as the evaluator accumulates it. */
  lemma {:induction false} DotPlain(m: nat, xs: seq<Wire>, ys: seq<Wire>, vs: seq<int>, u: seq<int>, k: nat)
    requires m > 0 && |xs| == |ys| && |u| == 2 * |xs| && k <= |xs| && Below(xs, |vs|) && Below(ys, |vs|)
    requires forall i :: 0 <= i < |xs| ==> Cong(m, u[i], vs[xs[i]]) && Cong(m, u[|xs| + i], vs[ys[i]])
    ensures Cong(m, DotInt(u, |xs|, k), Dot(m, xs[..k], ys[..k], vs))
  {
    if k > 0 {
      var n := |xs|;
      DotPlain(m, xs, ys, vs, u, k - 1);
      assert xs[..k][..k - 1] == xs[..k - 1] && ys[..k][..k - 1] == ys[..k - 1];
      var a, b := vs[xs[k - 1]], vs[ys[k - 1]];
      CongMul(m, u[k - 1], a, u[n + k - 1], b);
      CongMod(m, a * b);
      var s := Dot(m, xs[..k - 1], ys[..k - 1], vs);
      CongAdd(m, DotInt(u, n, k - 1), s, u[k - 1] * u[n + k - 1], Mul(m, a, b));
      CongMod(m, s + Mul(m, a, b));
    }
  }

  // ---- every interactive gate ----------------------------------------------------------------------

  ghost predicate Masked(m: nat, g: Gate, v: seq<int>, d: seq<int>, vs: seq<int>)
    requires m > 0
  {
    && |v| == |d| == |Ins(g)| && Below(Ins(g), |vs|)
    && forall i :: 0 <= i < |v| ==> Cong(m, v[i], vs[Ins(g)[i]] + d[i])
  }

  lemma UnmaskedCong(m: nat, g: Gate, v: seq<int>, d: seq<int>, vs: seq<int>, i: nat)
    requires m > 0 && Masked(m, g, v, d, vs) && i < |v|
    ensures Cong(m, v[i] - d[i], vs[Ins(g)[i]])
  {
    CongSub(m, v[i], vs[Ins(g)[i]] + d[i], d[i], d[i]);
  }

  lemma Prod2(m: nat, o: int, a: int, b: int, u: int, w: int)
    requires m > 0 && Cong(m, a, u) && Cong(m, b, w)
    ensures Cong(m, o + a * b, o + Mul(m, u, w))
  {
    CongMul(m, a, u, b, w);
    CongMod(m, u * w);
    CongAdd(m, o, o, a * b, Mul(m, u, w));
  }

  lemma Prod3(m: nat, o: int, a: int, b: int, c: int, u: int, w: int, y: int)
    requires m > 0 && Cong(m, a, u) && Cong(m, b, w) && Cong(m, c, y)
    ensures Cong(m, o + a * b * c, o + Mul(m, Mul(m, u, w), y))
  {
    Prod2(m, 0, a, b, u, w);
    Prod2(m, o, a * b, c, Mul(m, u, w), y);
  }

  lemma Prod4(m: nat, o: int, a: int, b: int, c: int, d: int, u: int, w: int, y: int, z: int)
    requires m > 0 && Cong(m, a, u) && Cong(m, b, w) && Cong(m, c, y) && Cong(m, d, z)
    ensures Cong(m, o + a * b * c * d, o + Mul(m, Mul(m, Mul(m, u, w), y), z))
  {
    Prod3(m, 0, a, b, c, u, w, y);
    Prod2(m, o, a * b * c, d, Mul(m, Mul(m, u, w), y), z);
  }

  lemma DotMaskedOpen(m: nat, o: int, p: int, v: seq<int>, d: seq<int>, n: nat, dot: int)
    requires m > 1 && |v| == |d| == 2 * n && p == DotMasks(m, d[..n], d[n..])
    requires Cong(m, DotInt(Unmasked(v, d), n, n), dot)
    ensures InRange(DotExpr(m, n, v, n), |[o, p] + d|)
    ensures Cong(m, Secret(DotExpr(m, n, v, n), [o, p] + d), o + dot)
  {
    hide Cong, Mul, DotExpr, Secret, InRange, DotMasks, DotInt, Unmasked;
    DotExprValue(m, o, p, v, d, n, n);
    DotSecret(m, o + p, v, d, Unmasked(v, d), n, n);
    assert Cong(m, p, DotInt(d, n, n)) by {
      assert d[..n][..n] == d[..n] && d[n..][..n] == d[n..];
      DotMasksSum(m, d, n, n);
    }
    DotCollect(m, o, p, DotInt(d, n, n), DotInt(Unmasked(v, d), n, n), dot, DotValue(m, o + p, v, d, n, n));
  }

  lemma DotShape(m: nat, g: Gate, o: int, v: seq<int>, d: seq<int>)
    requires m > 0 && g.Simd? && !g.trunc && |v| == |d| == |Ins(g)| && |g.ins1| == |g.ins2|
    ensures QExpr(m, g, v) == DotExpr(m, |g.ins1|, v, |g.ins1|)
    ensures [o] + Products(m, g, d) + d == [o, DotMasks(m, d[..|g.ins1|], d[|g.ins1|..])] + d
  {
  }

  lemma OpenDot(m: nat, g: Gate, o: int, v: seq<int>, d: seq<int>, vs: seq<int>, ss: seq<int>)
    requires m > 1 && g.Simd? && !g.trunc && GateOk(g, |vs|) && Masked(m, g, v, d, vs)
    requires ss == [o] + Products(m, g, d) + d
    ensures InRange(QExpr(m, g, v), |ss|)
    ensures Cong(m, Secret(QExpr(m, g, v), ss), o + Dot(m, g.ins1, g.ins2, vs))
  {
    assert |v| == |d| == |Ins(g)| && |g.ins1| == |g.ins2|;
    hide Cong, DotExpr, Secret, InRange, Dot, DotMasks, DotInt, Unmasked, Masked, GateOk, QExpr, Products;
    var n := |g.ins1|;
    var p := DotMasks(m, d[..n], d[n..]);
    DotShape(m, g, o, v, d);
    DotUnmasked(m, g, v, d, vs);
    DotMaskedOpen(m, o, p, v, d, n, Dot(m, g.ins1, g.ins2, vs));
  }

  lemma DotUnmasked(m: nat, g: Gate, v: seq<int>, d: seq<int>, vs: seq<int>)
    requires m > 1 && g.Simd? && GateOk(g, |vs|) && Masked(m, g, v, d, vs)
    ensures Cong(m, DotInt(Unmasked(v, d), |g.ins1|, |g.ins1|), Dot(m, g.ins1, g.ins2, vs))
  {
    hide Cong, Dot, DotInt;
    var n := |g.ins1|;
    var u := Unmasked(v, d);
    forall i | 0 <= i < n ensures Cong(m, u[i], vs[g.ins1[i]]) && Cong(m, u[n + i], vs[g.ins2[i]]) {
      UnmaskedCong(m, g, v, d, vs, i);
      UnmaskedCong(m, g, v, d, vs, n + i);
    }
    DotPlain(m, g.ins1, g.ins2, vs, u, n);
    assert g.ins1[..n] == g.ins1 && g.ins2[..n] == g.ins2;
  }

  lemma DotCollect(m: nat, o: int, p: int, dd: int, uu: int, dot: int, s: int)
    requires m > 0 && Cong(m, s, o + p + uu - dd) && Cong(m, p, dd) && Cong(m, uu, dot)
    ensures Cong(m, s, o + dot)
  {
    CongAdd(m, uu, dot, p, dd);
    CongAdd(m, uu + p, dot + dd, o - dd, o - dd);
  }

  lemma OpenMul2(m: nat, g: Gate, o: int, v: seq<int>, d: seq<int>, vs: seq<int>, ss: seq<int>)
    requires m > 1 && g.Mul2? && GateOk(g, |vs|) && Masked(m, g, v, d, vs)
    requires ss == [o] + Products(m, g, d) + d
    ensures InRange(QExpr(m, g, v), |ss|)
    ensures Cong(m, Secret(QExpr(m, g, v), ss), o + Mul(m, vs[g.in1], vs[g.in2]))
  {
    hide Cong, Mul, Secret, InRange, Mul2Expr, Mul3Expr, Mul4Expr, DotExpr;
    var t := o + (v[0] - d[0]) * (v[1] - d[1]);
    assert ss == [o, Mul(m, d[0], d[1]), d[0], d[1]];
    assert Cong(m, Secret(QExpr(m, g, v), ss), t) by {
      Mul2Secret(m, o, d[0], d[1], v[0], v[1]);
    }
    assert Cong(m, t, o + Mul(m, vs[g.in1], vs[g.in2])) by {
      UnmaskedCong(m, g, v, d, vs, 0);
      UnmaskedCong(m, g, v, d, vs, 1);
      Prod2(m, o, v[0] - d[0], v[1] - d[1], vs[g.in1], vs[g.in2]);
    }
    CongTrans(m, Secret(QExpr(m, g, v), ss), t, o + Mul(m, vs[g.in1], vs[g.in2]));
  }

  lemma Mul3Plainly(m: nat, g: Gate, o: int, v: seq<int>, d: seq<int>, vs: seq<int>, t: int)
    requires m > 1 && g.Mul3? && GateOk(g, |vs|) && Masked(m, g, v, d, vs)
    requires t == o + (v[0] - d[0]) * (v[1] - d[1]) * (v[2] - d[2])
    ensures Cong(m, t, o + Mul(m, Mul(m, vs[g.in1], vs[g.in2]), vs[g.in3]))
  {
    UnmaskedCong(m, g, v, d, vs, 0);
    UnmaskedCong(m, g, v, d, vs, 1);
    UnmaskedCong(m, g, v, d, vs, 2);
    Prod3(m, o, v[0] - d[0], v[1] - d[1], v[2] - d[2], vs[g.in1], vs[g.in2], vs[g.in3]);
  }

  lemma Mul3Masked(m: nat, g: Gate, o: int, v: seq<int>, d: seq<int>, ss: seq<int>, t: int)
    requires m > 1 && g.Mul3? && |v| == |d| == 3
    requires ss == [o] + Products(m, g, d) + d
    requires t == o + (v[0] - d[0]) * (v[1] - d[1]) * (v[2] - d[2])
    ensures InRange(QExpr(m, g, v), |ss|)
    ensures Cong(m, Secret(QExpr(m, g, v), ss), t)
  {
    hide Cong, Mul, Secret, InRange, Mul3Expr;
    assert d == [d[0], d[1], d[2]];
    assert ss == [o] + Products(m, Mul3(0, 0, 0), [d[0], d[1], d[2]]) + [d[0], d[1], d[2]];
    Mul3Secret(m, o, d[0], d[1], d[2], v[0], v[1], v[2]);
  }

  lemma OpenMul3(m: nat, g: Gate, o: int, v: seq<int>, d: seq<int>, vs: seq<int>, ss: seq<int>)
    requires m > 1 && g.Mul3? && GateOk(g, |vs|) && Masked(m, g, v, d, vs)
    requires ss == [o] + Products(m, g, d) + d
    ensures InRange(QExpr(m, g, v), |ss|)
    ensures Cong(m, Secret(QExpr(m, g, v), ss), o + Mul(m, Mul(m, vs[g.in1], vs[g.in2]), vs[g.in3]))
  {
    var t := o + (v[0] - d[0]) * (v[1] - d[1]) * (v[2] - d[2]);
    Mul3Masked(m, g, o, v, d, ss, t);
    Mul3Plainly(m, g, o, v, d, vs, t);
  }

  lemma Mul4Plainly(m: nat, g: Gate, o: int, v: seq<int>, d: seq<int>, vs: seq<int>, t: int)
    requires m > 1 && g.Mul4? && GateOk(g, |vs|) && Masked(m, g, v, d, vs)
    requires t == o + (v[0] - d[0]) * (v[1] - d[1]) * (v[2] - d[2]) * (v[3] - d[3])
    ensures Cong(m, t, o + Mul(m, Mul(m, Mul(m, vs[g.in1], vs[g.in2]), vs[g.in3]), vs[g.in4]))
  {
    UnmaskedCong(m, g, v, d, vs, 0);
    UnmaskedCong(m, g, v, d, vs, 1);
    UnmaskedCong(m, g, v, d, vs, 2);
    UnmaskedCong(m, g, v, d, vs, 3);
    Prod4(m, o, v[0] - d[0], v[1] - d[1], v[2] - d[2], v[3] - d[3], vs[g.in1], vs[g.in2], vs[g.in3], vs[g.in4]);
  }

  lemma Mul4Masked(m: nat, g: Gate, o: int, v: seq<int>, d: seq<int>, ss: seq<int>, t: int)
    requires m > 1 && g.Mul4? && |v| == |d| == 4
    requires ss == [o] + Products(m, g, d) + d
    requires t == o + (v[0] - d[0]) * (v[1] - d[1]) * (v[2] - d[2]) * (v[3] - d[3])
    ensures InRange(QExpr(m, g, v), |ss|)
    ensures Cong(m, Secret(QExpr(m, g, v), ss), t)
  {
    hide Cong, Mul, Secret, InRange, Mul4Expr;
    assert d == [d[0], d[1], d[2], d[3]];
    assert ss == [o] + Products(m, Mul4(0, 0, 0, 0), [d[0], d[1], d[2], d[3]]) + [d[0], d[1], d[2], d[3]];
    Mul4Secret(m, o, d[0], d[1], d[2], d[3], v[0], v[1], v[2], v[3], ss, t);
  }

  lemma OpenMul4(m: nat, g: Gate, o: int, v: seq<int>, d: seq<int>, vs: seq<int>, ss: seq<int>)
    requires m > 1 && g.Mul4? && GateOk(g, |vs|) && Masked(m, g, v, d, vs)
    requires ss == [o] + Products(m, g, d) + d
    ensures InRange(QExpr(m, g, v), |ss|)
    ensures Cong(m, Secret(QExpr(m, g, v), ss), o + Mul(m, Mul(m, Mul(m, vs[g.in1], vs[g.in2]), vs[g.in3]), vs[g.in4]))
  {
    var t := o + (v[0] - d[0]) * (v[1] - d[1]) * (v[2] - d[2]) * (v[3] - d[3]);
    Mul4Masked(m, g, o, v, d, ss, t);
    Mul4Plainly(m, g, o, v, d, vs, t);
  }

  /** Opening an interactive gate opens its output mask plus its plain value. */
  lemma OpenGate(m: nat, g: Gate, o: int, v: seq<int>, d: seq<int>, vs: seq<int>, x: int, ss: seq<int>, val: int)
    requires m > 1 && Basic(g) && Interactive(g) && GateOk(g, |vs|) && Reduced(m, vs)
    requires Masked(m, g, v, d, vs) && ss == [o] + Products(m, g, d) + d
    requires val == GateVal(m, g, vs, x)
    ensures InRange(QExpr(m, g, v), |ss|)
    ensures Cong(m, Secret(QExpr(m, g, v), ss), o + val)
  {
    hide Products, QExpr, Masked, Cong;
    if g.Mul2? {
      OpenMul2(m, g, o, v, d, vs, ss);
    } else if g.Mul3? {
      OpenMul3(m, g, o, v, d, vs, ss);
    } else if g.Mul4? {
      OpenMul4(m, g, o, v, d, vs, ss);
    } else {
      OpenDot(m, g, o, v, d, vs, ss);
    }
  }
}
