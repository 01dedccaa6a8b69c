/** The load-balanced opening.  Every party holds a vector of shares.  The vector is cut
    into one chunk per party (the last party also takes the remainder); a party adds up
    everyone's copy of its chunk, reducing after every addition, and hands the sums to all. */
module Aggregation {
  import opened ZMod

  function PerParty(total: nat, nP: nat): nat
    requires nP > 0
  {
    total / nP
  }

  /** Where party pid's chunk starts and how long it is, for pid in 1..nP. */
  function ChunkStart(total: nat, nP: nat, pid: nat): nat
    requires 0 < pid <= nP
  {
    (pid - 1) * PerParty(total, nP)
  }

  function ChunkLen(total: nat, nP: nat, pid: nat): nat
    requires 0 < pid <= nP
  {
    if pid != nP then PerParty(total, nP) else PerParty(total, nP) + total % nP
  }

  /** Chunks lie one after the other and end where the vector ends. */
  lemma ChunksAbut(total: nat, nP: nat, pid: nat)
    requires 0 < pid <= nP
    ensures ChunkStart(total, nP, pid) + ChunkLen(total, nP, pid)
         == if pid == nP then total else ChunkStart(total, nP, pid + 1)
    ensures ChunkStart(total, nP, pid) + ChunkLen(total, nP, pid) <= total
    ensures ChunkStart(total, nP, 1) == 0
  {
    var per := PerParty(total, nP);
    assert total == per * nP + total % nP;
    assert (pid - 1) * per + per == pid * per;
    if pid == nP {
      assert (nP - 1) * per + per == per * nP;
    } else {
      assert pid * per <= nP * per by {
        assert (nP - pid) * per >= 0;
        assert nP * per == (nP - pid) * per + pid * per;
      }
    }
  }

  /** The work is shared out evenly: every party but the last has as many elements as go into the
      vector nP times, and the last one fewer than nP more. */
  lemma ChunksEven(total: nat, nP: nat, pid: nat)
    requires 0 < pid <= nP
    ensures pid < nP ==> ChunkLen(total, nP, pid) * nP <= total < (ChunkLen(total, nP, pid) + 1) * nP
    ensures ChunkLen(total, nP, 1) <= ChunkLen(total, nP, nP) < ChunkLen(total, nP, 1) + nP || nP == 1
  {
    var per := PerParty(total, nP);
    assert total == per * nP + total % nP;
    assert (per + 1) * nP == per * nP + nP;
  }

  function Chunk(x: seq<int>, nP: nat, pid: nat): (s: seq<int>)
    requires 0 < pid <= nP
    ensures |s| == ChunkLen(|x|, nP, pid)
  {
    ChunksAbut(|x|, nP, pid);
    x[ChunkStart(|x|, nP, pid)..][..ChunkLen(|x|, nP, pid)]
  }

  /** Element i of every vector, in the order of the parties. */
  function Slice(xs: seq<seq<int>>, i: nat): (s: seq<int>)
    requires forall p :: 0 <= p < |xs| ==> i < |xs[p]|
    ensures |s| == |xs| && forall p :: 0 <= p < |s| ==> s[p] == xs[p][i]
  {
    seq(|xs|, p requires 0 <= p < |xs| => xs[p][i])
  }

  ghost predicate SameLength(xs: seq<seq<int>>, n: nat) {
    forall p :: 0 <= p < |xs| ==> |xs[p]| == n
  }

  /** The element-wise sums. */
  function ColumnSums(m: nat, xs: seq<seq<int>>, n: nat): (s: seq<int>)
    requires m > 0 && SameLength(xs, n)
    ensures |s| == n && forall i :: 0 <= i < n ==> s[i] == SumMod(m, Slice(xs, i))
  {
    seq(n, i requires 0 <= i < n => SumMod(m, Slice(xs, i)))
  }

  function Chunks(xs: seq<seq<int>>, nP: nat, pid: nat): (s: seq<seq<int>>)
    requires 0 < pid <= nP
    ensures |s| == |xs| && forall p :: 0 <= p < |s| ==> s[p] == Chunk(xs[p], nP, pid)
  {
    seq(|xs|, p requires 0 <= p < |xs| => Chunk(xs[p], nP, pid))
  }

  /** What party pid hands out: its chunk of the sums. */
  function Part(m: nat, xs: seq<seq<int>>, total: nat, nP: nat, pid: nat): (s: seq<int>)
    requires m > 0 && 0 < pid <= nP && SameLength(xs, total)
    ensures |s| == ChunkLen(total, nP, pid)
  {
    ColumnSums(m, Chunks(xs, nP, pid), ChunkLen(total, nP, pid))
  }

  function ChunkSums(m: nat, xs: seq<seq<int>>, total: nat, nP: nat, n: nat): (s: seq<seq<int>>)
    requires m > 0 && n <= nP && SameLength(xs, total)
    ensures |s| == n && forall p :: 0 <= p < n ==> s[p] == Part(m, xs, total, nP, p + 1)
  {
    seq(n, p requires 0 <= p < n => Part(m, xs, total, nP, p + 1))
  }

  lemma PartIsSlice(m: nat, xs: seq<seq<int>>, total: nat, nP: nat, pid: nat)
    requires m > 0 && 0 < pid <= nP && SameLength(xs, total)
    ensures ChunkStart(total, nP, pid) + ChunkLen(total, nP, pid) <= total
    ensures Part(m, xs, total, nP, pid)
         == ColumnSums(m, xs, total)[ChunkStart(total, nP, pid)..][..ChunkLen(total, nP, pid)]
  {
    ChunksAbut(total, nP, pid);
    var cs, start := Chunks(xs, nP, pid), ChunkStart(total, nP, pid);
    forall i | 0 <= i < ChunkLen(total, nP, pid)
      ensures SumMod(m, Slice(cs, i)) == SumMod(m, Slice(xs, start + i))
    {
      assert Slice(cs, i) == Slice(xs, start + i);
    }
  }

  /** The party that sums up chunk `pid`: its own copy and the received ones, in id order. */
  method SumChunk(m: nat, chunks: seq<seq<int>>, len: nat) returns (agg: array<int>)
    requires m > 0 && SameLength(chunks, len)
    ensures fresh(agg) && agg[..] == ColumnSums(m, chunks, len)
  {
    agg := new int[len](_ => 0);
    ghost var t := agg[..];
    for p := 0 to |chunks|
      invariant agg[..] == t && t == ColumnSums(m, chunks[..p], len)
    {
      AddRow(m, agg, chunks[p]);
      forall i | 0 <= i < len
        ensures Add(m, t[i], chunks[p][i]) == SumMod(m, Slice(chunks[..p + 1], i))
      {
        assert Slice(chunks[..p + 1], i)[..p] == Slice(chunks[..p], i);
      }
      t := ColumnSums(m, chunks[..p + 1], len);
    }
    assert chunks[..|chunks|] == chunks;
  }

  method AddRow(m: nat, agg: array<int>, row: seq<int>)
    requires m > 0 && |row| == agg.Length
    modifies agg
    ensures forall i :: 0 <= i < agg.Length ==> agg[i] == Add(m, old(agg[i]), row[i])
  {
    for i := 0 to agg.Length
      invariant forall k :: 0 <= k < i ==> agg[k] == Add(m, old(agg[k]), row[k])
      invariant forall k :: i <= k < agg.Length ==> agg[k] == old(agg[k])
    {
      agg[i] := (agg[i] + row[i]) % m;
    }
  }

  /** What every party ends with: the chunks put back in place.  Whoever puts them
      together, the result is the vector of sums. */
  method Assemble(m: nat, total: nat, nP: nat, parts: seq<seq<int>>, ghost xs: seq<seq<int>>)
    returns (agg: array<int>)
    requires m > 0 && nP > 0 && |xs| > 0 && SameLength(xs, total)
    requires parts == ChunkSums(m, xs, total, nP, nP)
    ensures fresh(agg) && agg[..] == ColumnSums(m, xs, total)
  {
    agg := new int[total](_ => 0);
    ghost var sums := ColumnSums(m, xs, total);
    ChunksAbut(total, nP, 1);
    for pid := 1 to nP + 1
      invariant var done := if pid <= nP then ChunkStart(total, nP, pid) else total;
        done <= total && (forall k :: 0 <= k < done ==> agg[k] == sums[k])
        && forall k :: done <= k < total ==> agg[k] == 0
    {
      ChunksAbut(total, nP, pid);
      PartIsSlice(m, xs, total, nP, pid);
      PlaceChunk(m, agg, ChunkStart(total, nP, pid), parts[pid - 1], sums, xs);
    }
    assert agg[..] == sums;
  }

  method PlaceChunk(m: nat, agg: array<int>, start: nat, part: seq<int>, ghost sums: seq<int>, ghost xs: seq<seq<int>>)
    requires m > 0 && start + |part| <= agg.Length == |sums|
    requires SameLength(xs, |sums|) && sums == ColumnSums(m, xs, |sums|)
    requires part == sums[start..][..|part|]
    requires forall k :: start <= k < start + |part| ==> agg[k] == 0
    modifies agg
    ensures forall k :: 0 <= k < agg.Length ==>
      agg[k] == if start <= k < start + |part| then sums[k] else old(agg[k])
  {
    for i := 0 to |part|
      invariant forall k :: 0 <= k < agg.Length ==>
        agg[k] == if start <= k < start + i then sums[k] else old(agg[k])
    {
      SumModIsSum(m, Slice(xs, start + i));
      ModUnique(m, part[i], 0, part[i]);
      agg[start + i] := (agg[start + i] + part[i]) % m;
    }
  }
}
