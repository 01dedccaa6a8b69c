/** Frames of the broadcast bus: how a message is cut into encrypted fragments. */
module BusFrames {

  type Byte = bv8
  type Bytes = seq<Byte>

  const MAX_PAYLOAD: nat := 1400

  /** One data frame on the stream of a fixed (sender, target) pair. */
  datatype Datagram = Datagram(seqno: nat, idx: nat, total: nat, payload: Bytes)

  // ---- the cipher -----------------------------------------------------------------------

  /** A 12-byte nonce, byte by byte. */
  type NonceBytes = seq<nat>

  /** Counter mode: the key stream of a nonce is combined with the text (section 6.5 of
      NIST SP 800-38A).  What the stream looks like does not matter here. */
  type KeyStream = (NonceBytes, nat) -> Byte

  /** Role, sender, target, 0, sequence number (4 bytes, low first), fragment number (2), 0, 0. */
  function Nonce(role: nat, sender: nat, target: nat, seqno: nat, idx: nat): (s: NonceBytes)
    ensures |s| == 12
  {
    [role % 256, sender % 256, target % 256, 0,
     seqno % 256, seqno / 256 % 256, seqno / 256 / 256 % 256, seqno / 256 / 256 / 256 % 256,
     idx % 256, idx / 256 % 256, 0, 0]
  }

  function Crypt(ks: KeyStream, nonce: NonceBytes, text: Bytes): (r: Bytes)
    ensures |r| == |text|
  {
    seq(|text|, i requires 0 <= i < |text| => text[i] ^ ks(nonce, i))
  }

  lemma XorTwice(a: Byte, b: Byte)
    ensures (a ^ b) ^ b == a
  {
  }

  /** Decrypting is encrypting again. */
  lemma CryptTwice(ks: KeyStream, nonce: NonceBytes, text: Bytes)
    ensures Crypt(ks, nonce, Crypt(ks, nonce, text)) == text
  {
    var r := Crypt(ks, nonce, Crypt(ks, nonce, text));
    forall i | 0 <= i < |text| ensures r[i] == text[i] {
      XorTwice(text[i], ks(nonce, i));
    }
  }

  lemma LowByteAndRest(a: nat, b: nat)
    requires a % 256 == b % 256 && a / 256 == b / 256
    ensures a == b
  {
    assert a == a / 256 * 256 + a % 256 && b == b / 256 * 256 + b % 256;
  }

  /** Nonces are the same for the same fragment of the same message on the same stream in the
      same role only, as long as ids fit 8 bits, sequence numbers 32 and fragment numbers 16. */
  lemma NonceUnique(role1: nat, sender1: nat, target1: nat, s1: nat, i1: nat,
                    role2: nat, sender2: nat, target2: nat, s2: nat, i2: nat)
    requires role1 < 256 && sender1 < 256 && target1 < 256 && s1 < 0x1_0000_0000 && i1 < 65536
    requires role2 < 256 && sender2 < 256 && target2 < 256 && s2 < 0x1_0000_0000 && i2 < 65536
    ensures Nonce(role1, sender1, target1, s1, i1) == Nonce(role2, sender2, target2, s2, i2) <==>
      role1 == role2 && sender1 == sender2 && target1 == target2 && s1 == s2 && i1 == i2
  {
    var a, b := Nonce(role1, sender1, target1, s1, i1), Nonce(role2, sender2, target2, s2, i2);
    if a == b {
      assert a[0] == b[0] && a[1] == b[1] && a[2] == b[2];
      assert a[4] == b[4] && a[5] == b[5] && a[6] == b[6] && a[7] == b[7] && a[8] == b[8] && a[9] == b[9];
      FourBytes(s1, s2);
      TwoBytes(i1, i2);
    }
  }

  lemma FourBytes(a: nat, b: nat)
    requires a < 0x1_0000_0000 && b < 0x1_0000_0000
    requires a % 256 == b % 256 && a / 256 % 256 == b / 256 % 256
    requires a / 256 / 256 % 256 == b / 256 / 256 % 256 && a / 256 / 256 / 256 % 256 == b / 256 / 256 / 256 % 256
    ensures a == b
  {
    LowByteAndRest(a / 256 / 256, b / 256 / 256);
    LowByteAndRest(a / 256, b / 256);
    LowByteAndRest(a, b);
  }

  lemma TwoBytes(a: nat, b: nat)
    requires a < 65536 && b < 65536 && a % 256 == b % 256 && a / 256 % 256 == b / 256 % 256
    ensures a == b
  {
    LowByteAndRest(a, b);
  }

  // ---- fragments -----------------------------------------------------------------------------

  /** How many frames a message takes; an empty message takes one. */
  function Total(len: nat): (t: nat)
    ensures t > 0
  {
    if len == 0 then 1 else (len + MAX_PAYLOAD - 1) / MAX_PAYLOAD
  }

  /** Fragment i of a message. */
  function Fragment(msg: Bytes, i: nat): (f: Bytes)
    requires i < Total(|msg|)
    ensures |f| <= MAX_PAYLOAD && (|msg| > 0 ==> |f| > 0)
  {
    var off := i * MAX_PAYLOAD;
    var end := if off + MAX_PAYLOAD < |msg| then off + MAX_PAYLOAD else |msg|;
    msg[off..end]
  }

  /** Frame fields are 16 bits wide. */
  function Cast16(n: nat): (r: nat)
    ensures r < 65536
  {
    n % 65536
  }

  /** All fragments but the last carry 1400 bytes, and the last one what is left. */
  lemma FragmentSizes(msg: Bytes, i: nat)
    requires i < Total(|msg|)
    ensures i + 1 < Total(|msg|) ==> |Fragment(msg, i)| == 1400
    ensures i + 1 == Total(|msg|) ==> |Fragment(msg, i)| == |msg| - 1400 * i <= 1400
  {
  }

  /** The stream's constants: the key stream of the pair and the two ids. */
  datatype Pipe = Pipe(ks: KeyStream, sender: nat, target: nat)

  function NonceOf(p: Pipe, seqno: nat, idx: nat): NonceBytes {
    Nonce(0, p.sender, p.target, seqno, idx)
  }

  /** The frame the sender emits for fragment i of the message with number s. */
  function Frame(p: Pipe, msg: Bytes, s: nat, i: nat): Datagram
    requires i < Total(|msg|)
  {
    Datagram(s, Cast16(i), Cast16(Total(|msg|)), Crypt(p.ks, NonceOf(p, s, Cast16(i)), Fragment(msg, i)))
  }

  lemma XorLeft(a: Byte, b: Byte)
    ensures (a ^ b) ^ a == b
  {
  }

  /** Every fragment goes out under its own nonce: what is put over byte j of the text is the
      key stream at place j of role 0, sender, target, 0, the message's number low byte first,
      the fragment's number low byte first, 0, 0. */
  lemma PayloadIs(p: Pipe, msg: Bytes, s: nat, i: nat, j: nat)
    requires i < Total(|msg|) && i < 65536 && j < |Fragment(msg, i)|
    ensures |Frame(p, msg, s, i).payload| == |Fragment(msg, i)|
    ensures Frame(p, msg, s, i).payload[j] ^ Fragment(msg, i)[j]
      == p.ks([0, p.sender % 256, p.target % 256, 0,
               s % 256, s / 256 % 256, s / 256 / 256 % 256, s / 256 / 256 / 256 % 256,
               i % 256, i / 256 % 256, 0, 0], j)
  {
    hide Fragment, Total;
    var nonce := NonceOf(p, s, Cast16(i));
    XorLeft(Fragment(msg, i)[j], p.ks(nonce, j));
    assert Cast16(i) == i;
    assert nonce == [0, p.sender % 256, p.target % 256, 0,
                     s % 256, s / 256 % 256, s / 256 / 256 % 256, s / 256 / 256 / 256 % 256,
                     i % 256, i / 256 % 256, 0, 0];
  }

  /** No two data frames are enciphered under the same nonce, whoever sends them and to whom,
      unless one is the other sent again: the key of a pair is the same in both directions. */
  lemma FrameNonces(p: Pipe, s: nat, i: nat, q: Pipe, r: nat, j: nat)
    requires p.sender < 256 && p.target < 256 && s < 0x1_0000_0000 && i < 65536
    requires q.sender < 256 && q.target < 256 && r < 0x1_0000_0000 && j < 65536
    ensures NonceOf(p, s, i) == NonceOf(q, r, j) <==> p.sender == q.sender && p.target == q.target && s == r && i == j
  {
    NonceUnique(0, p.sender, p.target, s, i, 0, q.sender, q.target, r, j);
  }

  /** Numbers that are wider than their fields leave the same bytes as what is left of them. */
  lemma LowBytes(a: nat)
    ensures var r := a % 0x1_0000_0000;
      && a % 256 == r % 256 && a / 256 % 256 == r / 256 % 256
      && a / 256 / 256 % 256 == r / 256 / 256 % 256 && a / 256 / 256 / 256 % 256 == r / 256 / 256 / 256 % 256
  {
    var r, q := a % 0x1_0000_0000, a / 0x1_0000_0000;
    assert a == q * 0x1_0000_0000 + r;
    assert a / 256 == q * 0x100_0000 + r / 256;
    assert a / 256 / 256 == q * 0x1_0000 + r / 256 / 256;
    assert a / 256 / 256 / 256 == q * 0x100 + r / 256 / 256 / 256;
  }

  /** Two fragments on one stream go out under the same nonce exactly if their messages' numbers
      agree in 32 bits and their own numbers in 16. */
  lemma SameNonceIff(p: Pipe, s: nat, i: nat, r: nat, j: nat)
    ensures NonceOf(p, s, Cast16(i)) == NonceOf(p, r, Cast16(j)) <==>
      s % 0x1_0000_0000 == r % 0x1_0000_0000 && i % 65536 == j % 65536
  {
    hide Cast16;
    var a, b := NonceOf(p, s, Cast16(i)), NonceOf(p, r, Cast16(j));
    LowBytes(s);
    LowBytes(r);
    CastIs(i);
    CastIs(j);
    if a == b {
      assert a[4] == b[4] && a[5] == b[5] && a[6] == b[6] && a[7] == b[7] && a[8] == b[8] && a[9] == b[9];
      FourBytes(s % 0x1_0000_0000, r % 0x1_0000_0000);
      TwoBytes(Cast16(i), Cast16(j));
    }
  }

  lemma CastIs(n: nat)
    ensures Cast16(n) == n % 65536 < 65536
  {
  }

  /** The fragments of one message all have nonces of their own if and only if there are at most
      65536 of them: fragment 65536 goes out under the nonce of fragment 0. */
  lemma OwnNoncesIff(p: Pipe, msg: Bytes, s: nat)
    ensures (forall i: nat, j: nat :: i < j < Total(|msg|) ==>
              NonceOf(p, s, Cast16(i)) != NonceOf(p, s, Cast16(j)))
       <==> Total(|msg|) <= 65536
  {
    hide NonceOf, Cast16, Total;
    forall i: nat, j: nat | i < j < Total(|msg|)
      ensures NonceOf(p, s, Cast16(i)) == NonceOf(p, s, Cast16(j)) <==> i % 65536 == j % 65536
    {
      SameNonceIff(p, s, i, s, j);
    }
    if Total(|msg|) > 65536 {
      SameNonceIff(p, s, 0, s, 65536);
    }
  }

  /** What the receiver makes of the payload. */
  function Plain(p: Pipe, d: Datagram): Bytes {
    Crypt(p.ks, NonceOf(p, d.seqno, d.idx), d.payload)
  }

  /** Frames can carry a message only if its fragment count fits their fields. */
  predicate Fits(msg: Bytes) {
    |msg| <= 65535 * MAX_PAYLOAD
  }

  lemma FitsTotal(msg: Bytes)
    ensures Fits(msg) <==> Total(|msg|) <= 65535
    ensures Fits(msg) ==> Cast16(Total(|msg|)) == Total(|msg|)
  {
  }

  /** A frame of a message that fits carries its fragment. */
  lemma FrameIs(p: Pipe, msg: Bytes, s: nat, i: nat)
    requires Fits(msg) && i < Total(|msg|)
    ensures var d := Frame(p, msg, s, i);
      d.seqno == s && d.idx == i && d.total == Total(|msg|) && Plain(p, d) == Fragment(msg, i)
      && |d.payload| == |Fragment(msg, i)|
  {
    hide Fragment, Crypt, Nonce;
    FitsTotal(msg);
    CryptTwice(p.ks, NonceOf(p, s, i), Fragment(msg, i));
  }

  function Concat(parts: seq<Bytes>): (r: Bytes)
  {
    if parts == [] then [] else Concat(parts[..|parts| - 1]) + parts[|parts| - 1]
  }

  function Fragments(msg: Bytes): (fs: seq<Bytes>)
    ensures |fs| == Total(|msg|) && forall i :: 0 <= i < |fs| ==> fs[i] == Fragment(msg, i)
  {
    seq(Total(|msg|), i requires 0 <= i < Total(|msg|) => Fragment(msg, i))
  }

  lemma {:induction false} FragmentsPrefix(msg: Bytes, n: nat)
    requires n <= Total(|msg|)
    ensures var end := if n * MAX_PAYLOAD < |msg| then n * MAX_PAYLOAD else |msg|;
      Concat(Fragments(msg)[..n]) == msg[..end]
  {
    if n > 0 {
      FragmentsPrefix(msg, n - 1);
      var fs := Fragments(msg);
      assert fs[..n][..n - 1] == fs[..n - 1] && fs[..n][n - 1] == Fragment(msg, n - 1);
    }
  }

  /** Reassembling all fragments gives the message back. */
  lemma Reassemble(msg: Bytes)
    ensures Concat(Fragments(msg)) == msg
  {
    FragmentsPrefix(msg, Total(|msg|));
    assert Fragments(msg)[..Total(|msg|)] == Fragments(msg);
  }

  lemma {:induction false} ConcatLength(parts: seq<Bytes>)
    requires forall i :: 0 <= i < |parts| ==> |parts[i]| <= MAX_PAYLOAD
    ensures |Concat(parts)| <= |parts| * MAX_PAYLOAD
  {
    if parts != [] {
      ConcatLength(parts[..|parts| - 1]);
    }
  }
}
