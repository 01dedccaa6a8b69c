/** Vectors of bits on the wire: eight to a byte, the first in the lowest place. */
module BoolPacking {

  /** Bit j of a byte. */
  function Bit(b: bv8, j: nat): bool
    requires j < 8
  {
    (b >> j) & 1 == 1
  }

  lemma SetBit(b: bv8, j: nat, k: nat)
    requires j < 8 && k < 8
    ensures Bit(b | (1 << j), k) == (k == j || Bit(b, k))
  {
    SetBitAt(b, 1 << j, j, k);
  }

  lemma SetBitAt(b: bv8, v: bv8, j: nat, k: nat)
    requires j < 8 && k < 8 && v == 1 << j
    ensures Bit(b | v, k) == (k == j || Bit(b, k))
  {
  }

  /** Shifting right by one moves every bit one place down. */
  lemma ShiftBit(b: bv8, j: nat)
    requires j < 7
    ensures Bit(b >> 1, j) == Bit(b, j + 1)
  {
  }

  function ByteCount(n: nat): (b: nat)
    ensures n <= 8 * b < n + 8
  {
    (n + 7) / 8
  }

  /** The bytes hold the bits in order; unused places of the last byte are 0. */
  ghost predicate IsPacked(data: seq<bool>, bytes: seq<bv8>) {
    && |bytes| == ByteCount(|data|)
    && forall b, j :: 0 <= b < |bytes| && 0 <= j < 8 ==> Bit(bytes[b], j) == (8 * b + j < |data| && data[8 * b + j])
  }

  /** One byte of the packing loop: up to eight bits from position i on. */
  method PackByte(data: seq<bool>, i: nat) returns (temp: bv8, next: nat)
    requires i < |data|
    ensures next == if i + 8 <= |data| then i + 8 else |data|
    ensures forall j :: 0 <= j < 8 ==> Bit(temp, j) == (i + j < |data| && data[i + j])
  {
    hide Bit;
    temp, next := 0, i;
    var j := 0;
    Clear();
    while j < 8 && next < |data|
      invariant 0 <= j <= 8 && next == i + j <= |data|
      invariant forall k :: 0 <= k < 8 ==> Bit(temp, k) == (k < j && data[i + k])
    {
      if data[next] {
        var more := temp | (1 << j);
        forall k | 0 <= k < 8 ensures Bit(more, k) == (k == j || Bit(temp, k)) {
          SetBit(temp, j, k);
        }
        temp := more;
      }
      j, next := j + 1, next + 1;
    }
  }

  lemma Clear()
    ensures forall k :: 0 <= k < 8 ==> !Bit(0, k)
  {
  }

  method Pack(data: seq<bool>) returns (res: seq<bv8>)
    ensures IsPacked(data, res)
  {
    hide Bit;
    res := [];
    var i := 0;
    while i < |data|
      invariant 0 <= i <= |data| && (i == 8 * |res| || (i == |data| && |res| == ByteCount(|data|)))
      invariant forall b, j :: 0 <= b < |res| && 0 <= j < 8 ==>
        Bit(res[b], j) == (8 * b + j < |data| && data[8 * b + j])
    {
      var temp, next := PackByte(data, i);
      res := res + [temp];
      i := next;
    }
  }

  /** One byte of the unpacking loop: its bits, lowest first, as long as any are wanted. */
  method UnpackByte(packed: bv8, len: nat, res0: seq<bool>) returns (res: seq<bool>)
    requires |res0| < len
    ensures |res| == if |res0| + 8 <= len then |res0| + 8 else len
    ensures forall k :: 0 <= k < |res0| ==> res[k] == res0[k]
    ensures forall j :: 0 <= j < 8 && |res0| + j < len ==> res[|res0| + j] == Bit(packed, j)
  {
    hide Bit;
    var temp := packed;
    res := res0;
    var j := 0;
    while j < 8 && |res| < len
      invariant 0 <= j <= 8 && |res| == |res0| + j <= len
      invariant forall k :: 0 <= k < |res0| ==> res[k] == res0[k]
      invariant forall k :: 0 <= k < j ==> res[|res0| + k] == Bit(packed, k)
      invariant forall k :: 0 <= k < 8 - j ==> Bit(temp, k) == Bit(packed, j + k)
    {
      LowBit(temp);
      res := res + [temp & 1 == 1];
      var less := temp >> 1;
      Shifted(packed, temp, less, j);
      temp := less;
      j := j + 1;
    }
  }

  /** After one more shift. */
  lemma Shifted(packed: bv8, b: bv8, c: bv8, j: nat)
    requires j < 8 && c == b >> 1 && forall k :: 0 <= k < 8 - j ==> Bit(b, k) == Bit(packed, j + k)
    ensures forall k :: 0 <= k < 7 - j ==> Bit(c, k) == Bit(packed, j + 1 + k)
  {
    hide Bit;
    forall k | 0 <= k < 7 - j ensures Bit(c, k) == Bit(packed, j + 1 + k) {
      ShiftBit(b, k);
      assert Bit(b, k + 1) == Bit(packed, j + (k + 1));
    }
  }

  lemma LowBit(b: bv8)
    ensures Bit(b, 0) == (b & 1 == 1)
  {
  }

  /** Reads len bits; the caller supplies enough bytes. */
  method Unpack(packed: seq<bv8>, len: nat) returns (res: seq<bool>)
    requires |packed| >= ByteCount(len)
    ensures |res| == len && forall i :: 0 <= i < len ==> res[i] == Bit(packed[i / 8], i % 8)
  {
    hide Bit;
    res := [];
    var count := 0;
    while |res| < len
      invariant |res| <= len && (|res| == 8 * count || |res| == len) && (|res| < len ==> count < |packed|)
      invariant forall i :: 0 <= i < |res| ==> i / 8 < |packed| && res[i] == Bit(packed[i / 8], i % 8)
    {
      var before := res;
      res := UnpackByte(packed[count], len, before);
      forall i | 0 <= i < |res| ensures i / 8 < |packed| && res[i] == Bit(packed[i / 8], i % 8) {
        if |before| <= i {
          assert i / 8 == count && i % 8 == i - |before|;
          assert res[|before| + (i - |before|)] == Bit(packed[count], i - |before|);
        }
      }
      count := count + 1;
    }
  }

  /** Packed vectors are read back unchanged, whatever follows them. */
  lemma UnpackedIs(data: seq<bool>, bytes: seq<bv8>, rest: seq<bv8>, res: seq<bool>)
    requires IsPacked(data, bytes)
    requires |res| == |data| && forall i :: 0 <= i < |data| ==> res[i] == Bit((bytes + rest)[i / 8], i % 8)
    ensures res == data
  {
    hide Bit;
    forall i | 0 <= i < |data| ensures res[i] == data[i] {
      assert 8 * (i / 8) + i % 8 == i && i / 8 < |bytes|;
      assert (bytes + rest)[i / 8] == bytes[i / 8];
    }
  }

  /** Sending a vector of bits and reading it back changes nothing. */
  method SendBits(data: seq<bool>) returns (received: seq<bool>)
    ensures received == data
  {
    var bytes := Pack(data);
    received := Unpack(bytes, |data|);
    assert bytes + [] == bytes;
    UnpackedIs(data, bytes, [], received);
  }

  // ---- elements of a ring on the wire --------------------------------------------------------

  ghost predicate AreBits(v: seq<int>) {
    forall i :: 0 <= i < |v| ==> v[i] == 0 || v[i] == 1
  }

  /** The bits of a vector over the two-element ring. */
  function ToBits(v: seq<int>): (b: seq<bool>)
    ensures |b| == |v| && forall i :: 0 <= i < |v| ==> b[i] == (v[i] == 1)
  {
    seq(|v|, i requires 0 <= i < |v| => v[i] == 1)
  }

  function FromBits(b: seq<bool>): (v: seq<int>)
    ensures |v| == |b| && forall i :: 0 <= i < |b| ==> v[i] == if b[i] then 1 else 0
  {
    seq(|b|, i requires 0 <= i < |b| => if b[i] then 1 else 0)
  }

  /** What arrives of a vector over Z_m: over the two-element ring it is packed by the sender
      and unpacked by the receiver, who knows its length; other elements travel as they are. */
  method Carry(m: nat, v: seq<int>) returns (r: seq<int>)
    requires m == 2 ==> AreBits(v)
    ensures r == v
  {
    if m == 2 {
      var b := SendBits(ToBits(v));
      r := FromBits(b);
    } else {
      r := v;
    }
  }

  /** Only one byte vector represents a vector of bits. */
  lemma PackedUnique(data: seq<bool>, a: seq<bv8>, b: seq<bv8>)
    requires IsPacked(data, a) && IsPacked(data, b)
    ensures a == b
  {
    forall k | 0 <= k < |a| ensures a[k] == b[k] {
      forall j | 0 <= j < 8 ensures Bit(a[k], j) == Bit(b[k], j) {
      }
      SameBits(a[k], b[k]);
    }
  }

  lemma SameBits(a: bv8, b: bv8)
    requires forall j :: 0 <= j < 8 ==> Bit(a, j) == Bit(b, j)
    ensures a == b
  {
    assert Bit(a, 0) == Bit(b, 0) && Bit(a, 1) == Bit(b, 1) && Bit(a, 2) == Bit(b, 2) && Bit(a, 3) == Bit(b, 3);
    assert Bit(a, 4) == Bit(b, 4) && Bit(a, 5) == Bit(b, 5) && Bit(a, 6) == Bit(b, 6) && Bit(a, 7) == Bit(b, 7);
  }
}
