/** The arithmetic of the less-than-zero test: comparing bit strings, counting wrap-arounds,
    and turning a masked bit into a field element. */
module LtzArithmetic {
  import opened Circuits
  import opened Preprocess
  import opened Comparator
  import opened ZMod

  // ---- comparing two 64-bit numbers -----------------------------------------------------------

  lemma ShrStep(v: nat, i: nat)
    ensures Shr(v, i) == 2 * Shr(v, i + 1) + Bit(v, i)
  {
  }

  lemma {:induction false} ShrZero(v: nat, i: nat)
    requires v < TwoTo(i)
    ensures Shr(v, i) == 0
  {
    ShrBound(v, i, 0);
  }

  function TwoTo(i: nat): (r: nat)
    ensures r > 0
  {
    if i == 0 then 1 else 2 * TwoTo(i - 1)
  }

  lemma {:induction false} ShrBound(v: nat, i: nat, j: nat)
    requires v < TwoTo(i + j)
    ensures Shr(v, i) < TwoTo(j)
  {
    if i > 0 {
      ShrBound(v, i - 1, j + 1);
    }
  }

  /** In the lane lo..lo+64 the bits of two numbers meet, most significant first: b marks
      agreement, d carries the bits of the second. */
  ghost predicate Compares(b: seq<int>, d: seq<int>, lo: nat, v: nat, r: nat) {
    |b| == |d| >= lo + 64 && forall j :: 0 <= j < 64 ==> ComparesAt(b, d, lo, v, r, j)
  }

  ghost predicate ComparesAt(b: seq<int>, d: seq<int>, lo: nat, v: nat, r: nat, j: nat)
    requires |b| == |d| >= lo + 64 && j < 64
  {
    && b[lo + j] == (if Bit(v, 63 - j) == Bit(r, 63 - j) then 1 else 0)
    && d[lo + j] == Bit(r, 63 - j)
  }

  lemma OneBitMore(b: seq<int>, d: seq<int>, lo: nat, hi: nat)
    requires lo < hi <= |b| && |d| == |b|
    ensures And(b, lo, hi) == And(b, lo, hi - 1) * b[hi - 1]
    ensures AtFirstZero(b, d, lo, hi)
         == AtFirstZero(b, d, lo, hi - 1) + And(b, lo, hi - 1) * (1 - b[hi - 1]) * d[hi - 1]
  {
  }

  /** One more bit of two numbers whose leading parts are x and y. */
  lemma CompareStep(a: int, f: int, b: int, d: int, x: nat, y: nat, p: int, q: int)
    requires a == (if x == y then 1 else 0) && f == (if x < y then 1 else 0)
    requires 0 <= p < 2 && 0 <= q < 2 && b == (if p == q then 1 else 0) && d == q
    ensures a * b == if 2 * x + p == 2 * y + q then 1 else 0
    ensures f + a * (1 - b) * d == if 2 * x + p < 2 * y + q then 1 else 0
  {
  }

  /** After j bits: all agree iff the leading parts are equal, and the selected bit is 1 iff
      the first is smaller. */
  lemma {:induction false} ComparePrefix(b: seq<int>, d: seq<int>, lo: nat, v: nat, r: nat, j: nat)
    requires Compares(b, d, lo, v, r) && j <= 64 && v < TwoTo(64) && r < TwoTo(64)
    ensures And(b, lo, lo + j) == if Shr(v, 64 - j) == Shr(r, 64 - j) then 1 else 0
    ensures AtFirstZero(b, d, lo, lo + j) == if Shr(v, 64 - j) < Shr(r, 64 - j) then 1 else 0
  {
    if j == 0 {
      ShrZero(v, 64);
      ShrZero(r, 64);
    } else {
      hide Shr, TwoTo, Bit, And, AtFirstZero;
      ComparePrefix(b, d, lo, v, r, j - 1);
      ShrStep(v, 64 - j);
      ShrStep(r, 64 - j);
      assert ComparesAt(b, d, lo, v, r, j - 1);
      OneBitMore(b, d, lo, lo + j);
      CompareStep(And(b, lo, lo + j - 1), AtFirstZero(b, d, lo, lo + j - 1), b[lo + j - 1], d[lo + j - 1],
                  Shr(v, 65 - j), Shr(r, 65 - j), Bit(v, 64 - j), Bit(r, 64 - j));
    }
  }

  lemma LaneCompares(b: seq<int>, d: seq<int>, lo: nat, v: nat, r: nat)
    requires Compares(b, d, lo, v, r) && v < TwoTo(64) && r < TwoTo(64)
    ensures AtFirstZero(b, d, lo, lo + 64) == if v < r then 1 else 0
  {
    ComparePrefix(b, d, lo, v, r, 64);
  }

  // ---- wrap-around ------------------------------------------------------------------------------

  /** The upper half of the field: what the online phase calls negative. */
  predicate Half(m: nat, v: int) {
    2 * v >= m - 1
  }

  function HalfBit(m: nat, v: int): int {
    if Half(m, v) then 1 else 0
  }

  lemma AddWraps(m: nat, a: int, b: int)
    requires 0 <= a < m && 0 <= b < m
    ensures Add(m, a, b) == if a + b < m then a + b else a + b - m
    ensures Add(m, a, b) < b <==> a + b >= m
  {
    if a + b < m {
      ModUnique(m, a + b, 0, a + b);
    } else {
      ModUnique(m, a + b, 1, a + b - m);
    }
  }

  /** Three comparisons of masked values decide the half: adding r and adding half of the
      modulus wraps as often in either order. */
  lemma WrapCount(m: nat, v: int, r: int, w: int, w2: int)
    requires m % 2 == 1 && 2 < m && 0 <= v < m && 0 <= r < m
    requires w == Add(m, v, r) && w2 == Add(m, w, (m + 1) / 2)
    ensures ((if w < r then 1 else 0) + (if w2 < r then 1 else 0) + (if w2 < (m + 1) / 2 then 1 else 0)) % 2
         == HalfBit(m, v)
  {
    hide Add;
    var half := (m + 1) / 2;
    var y := Add(m, v, half);
    AddWraps(m, v, r);
    AddWraps(m, w, half);
    AddWraps(m, v, half);
    AddWraps(m, y, r);
    assert Add(m, y, r) == w2;
  }

  // ---- from a masked bit to the field ---------------------------------------------------------------

  /** The exclusive or of bits, in integers. */
  lemma XorBits(bit: int, db: int, z: int)
    requires (bit == 0 || bit == 1) && (db == 0 || db == 1) && (z == 0 || z == 1)
    requires (bit + db) % 2 == z
    ensures bit + db - 2 * bit * db == z
  {
  }
}
