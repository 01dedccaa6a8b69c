/** Arithmetic in Z_m.  The program's two rings are both of this form: the prime
    field (m = p) and the Boolean ring (m = 2, so that + and - are xor and * is and).
    Every operation below reduces its result, as the program's ring types do. */
module ZMod {

  function Add(m: nat, a: int, b: int): (r: int)
    requires m > 0
    ensures 0 <= r < m
  {
    (a + b) % m
  }

  function Sub(m: nat, a: int, b: int): (r: int)
    requires m > 0
    ensures 0 <= r < m
  {
    (a - b) % m
  }

  function Mul(m: nat, a: int, b: int): (r: int)
    requires m > 0
    ensures 0 <= r < m
  {
    (a * b) % m
  }

  /** Congruence modulo m, the equality of the ring. */
  ghost predicate Cong(m: nat, a: int, b: int)
    requires m > 0
  {
    a % m == b % m
  }

  lemma CongWitness(m: nat, a: int, b: int) returns (k: int)
    requires m > 0 && Cong(m, a, b)
    ensures a == b + k * m
  {
    k := a / m - b / m;
    assert a == a / m * m + a % m && b == b / m * m + b % m;
    assert k * m == a / m * m - b / m * m;
  }

  lemma CongIntro(m: nat, a: int, b: int, k: int)
    requires m > 0 && a == b + k * m
    ensures Cong(m, a, b)
  {
    var q, r := b / m, b % m;
    assert b == q * m + r;
    assert a == (q + k) * m + r;
    ModUnique(m, a, q + k, r);
  }

  lemma ModUnique(m: nat, a: int, q: int, r: int)
    requires m > 0 && a == q * m + r && 0 <= r < m
    ensures a % m == r && a / m == q
  {
    var d := a / m - q;
    assert a == a / m * m + a % m;
    assert d * m == r - a % m;
    assert d >= 1 ==> d * m >= m;
    assert d <= -1 ==> d * m + m <= 0;
  }

  lemma CongMod(m: nat, a: int)
    requires m > 0
    ensures Cong(m, a % m, a)
  {
    ModUnique(m, a % m, 0, a % m);
  }

  lemma CongAdd(m: nat, a: int, b: int, c: int, d: int)
    requires m > 0 && Cong(m, a, b) && Cong(m, c, d)
    ensures Cong(m, a + c, b + d)
  {
    var k := CongWitness(m, a, b);
    var l := CongWitness(m, c, d);
    assert (k + l) * m == k * m + l * m;
    CongIntro(m, a + c, b + d, k + l);
  }

  lemma CongScale(m: nat, a: int, b: int, c: int)
    requires m > 0 && Cong(m, a, b)
    ensures Cong(m, a * c, b * c)
    ensures Cong(m, c * a, c * b)
  {
    var k := CongWitness(m, a, b);
    assert a * c == b * c + (k * c) * m by {
      assert (b + k * m) * c == b * c + k * m * c;
    }
    CongIntro(m, a * c, b * c, k * c);
    assert c * a == a * c && c * b == b * c;
  }

  lemma CongSub(m: nat, a: int, b: int, c: int, d: int)
    requires m > 0 && Cong(m, a, b) && Cong(m, c, d)
    ensures Cong(m, a - c, b - d)
  {
    CongScale(m, c, d, -1);
    CongAdd(m, a, b, c * -1, d * -1);
  }

  lemma CongMul(m: nat, a: int, b: int, c: int, d: int)
    requires m > 0 && Cong(m, a, b) && Cong(m, c, d)
    ensures Cong(m, a * c, b * d)
  {
    CongScale(m, a, b, c);
    CongScale(m, c, d, b);
  }

  lemma CongTrans(m: nat, a: int, b: int, c: int)
    requires m > 0 && Cong(m, a, b) && Cong(m, b, c)
    ensures Cong(m, a, c)
  {
  }

  /** Residues that are congruent are equal. */
  lemma CongEq(m: nat, a: int, b: int)
    requires m > 0 && Cong(m, a, b) && 0 <= a < m && 0 <= b < m
    ensures a == b
  {
    ModUnique(m, a, 0, a);
    ModUnique(m, b, 0, b);
  }

  // ---- sums --------------------------------------------------------------

  function Sum(s: seq<int>): int
  {
    if s == [] then 0 else Sum(s[..|s| - 1]) + s[|s| - 1]
  }

  /** The sum as the program accumulates it, reducing after every addition. */
  function SumMod(m: nat, s: seq<int>): int
    requires m > 0
  {
    if s == [] then 0 else Add(m, SumMod(m, s[..|s| - 1]), s[|s| - 1])
  }

  lemma {:induction false} SumModIsSum(m: nat, s: seq<int>)
    requires m > 0
    ensures Cong(m, SumMod(m, s), Sum(s))
    ensures 0 <= SumMod(m, s) < m
  {
    if s != [] {
      var t := s[..|s| - 1];
      SumModIsSum(m, t);
      CongAdd(m, SumMod(m, t), Sum(t), s[|s| - 1], s[|s| - 1]);
      CongMod(m, SumMod(m, t) + s[|s| - 1]);
    }
  }

  lemma {:induction false} SumAppend(s: seq<int>, x: int)
    ensures Sum(s + [x]) == Sum(s) + x
  {
    assert (s + [x])[..|s|] == s;
  }

  lemma {:induction false} SumConcat(s: seq<int>, t: seq<int>)
    ensures Sum(s + t) == Sum(s) + Sum(t)
  {
    if t == [] {
      assert s + t == s;
    } else {
      var u := t[..|t| - 1];
      SumConcat(s, u);
      assert (s + t)[..|s + t| - 1] == s + u;
    }
  }

  // Summation is linear, up to congruence.

  lemma {:induction false} SumScaled(m: nat, a: seq<int>, k: int, c: seq<int>)
    requires m > 0 && |a| == |c|
    requires forall i :: 0 <= i < |c| ==> c[i] == Mul(m, a[i], k)
    ensures Cong(m, Sum(c), Sum(a) * k)
  {
    if c == [] {
      assert 0 * k == 0;
    } else {
      var n := |c| - 1;
      SumScaled(m, a[..n], k, c[..n]);
      CongMod(m, a[n] * k);
      CongAdd(m, Sum(c[..n]), Sum(a[..n]) * k, c[n], a[n] * k);
      assert (Sum(a[..n]) + a[n]) * k == Sum(a[..n]) * k + a[n] * k;
    }
  }

  lemma {:induction false} SumAdded(m: nat, a: seq<int>, b: seq<int>, c: seq<int>)
    requires m > 0 && |a| == |b| == |c|
    requires forall i :: 0 <= i < |c| ==> c[i] == Add(m, a[i], b[i])
    ensures Cong(m, Sum(c), Sum(a) + Sum(b))
  {
    if c != [] {
      var n := |c| - 1;
      SumAdded(m, a[..n], b[..n], c[..n]);
      CongMod(m, a[n] + b[n]);
      CongAdd(m, Sum(c[..n]), Sum(a[..n]) + Sum(b[..n]), c[n], a[n] + b[n]);
    }
  }

  lemma {:induction false} SumZero(s: seq<int>)
    requires forall i :: 0 <= i < |s| ==> s[i] == 0
    ensures Sum(s) == 0
  {
    if s != [] {
      SumZero(s[..|s| - 1]);
    }
  }
}
