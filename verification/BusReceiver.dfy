/** The receiving end of one stream: reassembly in order, and the bookkeeping of what is
    missing. */
module BusReceiver {
  import opened BusFrames

  datatype Partial = Partial(total: nat, received: nat, frags: seq<Bytes>)

  datatype Chunk = Chunk(bytes: Bytes, offset: nat)

  datatype NackRec = NackRec(attempts: nat, last: nat)

  /** A fragment: sequence number and fragment number. */
  type Key = (nat, nat)

  datatype Rx = Rx(next: nat, maxSeen: nat, anySeen: bool, pending: map<nat, Partial>, queue: seq<Chunk>, bytes: nat,
                   nack: map<Key, NackRec>)

  const EMPTY_RX := Rx(0, 0, false, map[], [], 0, map[])

  // ---- what the pump does with a frame --------------------------------------------------------

  function Deliver(r: Rx, text: Bytes): Rx {
    if |text| > 0 then r.(queue := r.queue + [Chunk(text, 0)], bytes := r.bytes + |text|) else r
  }

  /** Hands over complete messages as long as the next one is complete. */
  function DrainPending(r: Rx): Rx
    decreases |r.pending|
  {
    if r.next in r.pending && r.pending[r.next].received == r.pending[r.next].total then
      DrainPending(PopNext(r))
    else r
  }

  function PopNext(r: Rx): (r': Rx)
    requires r.next in r.pending
    ensures |r'.pending| < |r.pending|
  {
    var r1 := Deliver(r, Concat(r.pending[r.next].frags));
    RemoveShrinks(r.pending, r.next);
    r1.(pending := r.pending - {r.next}, next := r.next + 1)
  }

  lemma RemoveShrinks<V>(m: map<nat, V>, k: nat)
    requires k in m
    ensures |m - {k}| < |m|
  {
    var m' := m - {k};
    assert m.Keys == m'.Keys + {k};
    assert |m.Keys| == |m'.Keys| + 1;
    assert |m| == |m.Keys| && |m'| == |m'.Keys|;
  }

  function Blank(n: nat): (fs: seq<Bytes>)
    ensures |fs| == n && forall i :: 0 <= i < n ==> fs[i] == []
  {
    seq(n, _ => [])
  }

  /** A slot is filled once; an empty payload leaves it as it is but still counts. */
  function Fill(p: Partial, total: nat, idx: nat, text: Bytes): Partial {
    var q := if p.total == 0 then Partial(total, p.received, Blank(total)) else p;
    if idx < q.total && idx < |q.frags| && q.frags[idx] == [] then
      Partial(q.total, q.received + 1, q.frags[idx := text])
    else q
  }

  function Noted(r: Rx, d: Datagram): Rx {
    r.(maxSeen := if !r.anySeen || d.seqno > r.maxSeen then d.seqno else r.maxSeen, anySeen := true,
       nack := r.nack - {(d.seqno, d.idx)})
  }

  function Stored(r: Rx, d: Datagram, text: Bytes): Rx {
    var p := if d.seqno in r.pending then r.pending[d.seqno] else Partial(0, 0, []);
    r.(pending := r.pending[d.seqno := Fill(p, d.total, d.idx, text)])
  }

  function HandleData(p: Pipe, r: Rx, d: Datagram): Rx {
    var r1 := Noted(r, d);
    if d.seqno < r.next then r1
    else if d.total == 1 && d.seqno == r.next then
      DrainPending(Deliver(r1, Plain(p, d)).(next := r.next + 1))
    else
      DrainPending(Stored(r1, d, Plain(p, d)))
  }

  // ---- what the application takes -----------------------------------------------------------------

  /** The bytes not yet handed out. */
  function Queued(queue: seq<Chunk>): Bytes {
    if queue == [] then [] else Rest(queue[0]) + Queued(queue[1..])
  }

  function Rest(c: Chunk): Bytes {
    if c.offset <= |c.bytes| then c.bytes[c.offset..] else []
  }

  /** Takes n bytes from the front of the queue; exhausted chunks are dropped. */
  function Take(queue: seq<Chunk>, n: nat): (r: (Bytes, seq<Chunk>))
    requires n <= |Queued(queue)|
    decreases queue
  {
    if n == 0 || queue == [] then ([], queue) else
      var avail := Rest(queue[0]);
      if n < |avail| then (avail[..n], [Chunk(queue[0].bytes, queue[0].offset + n)] + queue[1..])
      else
        var (more, rest) := Take(queue[1..], n - |avail|);
        (avail + more, rest)
  }

  function Recv(r: Rx, n: nat): (t: (Bytes, Rx))
    requires n <= |Queued(r.queue)| && n <= r.bytes
  {
    var (out, rest) := Take(r.queue, n);
    (out, r.(queue := rest, bytes := r.bytes - n))
  }

  lemma SplitInside(a: Bytes, b: Bytes, n: nat)
    requires n <= |a|
    ensures (a + b)[..n] == a[..n] && (a + b)[n..] == a[n..] + b
  {
  }

  lemma SplitPast(a: Bytes, b: Bytes, n: nat)
    requires |a| <= n <= |a| + |b|
    ensures (a + b)[..n] == a + b[..n - |a|] && (a + b)[n..] == b[n - |a|..]
  {
  }

  lemma QueuedCons(c: Chunk, q: seq<Chunk>)
    ensures Queued([c] + q) == Rest(c) + Queued(q)
  {
    assert ([c] + q)[1..] == q;
  }

  lemma QueuedNil()
    ensures Queued([]) == []
  {
  }

  lemma RestAfter(c: Chunk, n: nat)
    requires n < |Rest(c)|
    ensures Rest(Chunk(c.bytes, c.offset + n)) == Rest(c)[n..]
  {
  }

  lemma {:induction false} TakeIs(queue: seq<Chunk>, n: nat)
    requires n <= |Queued(queue)|
    ensures Take(queue, n).0 == Queued(queue)[..n] && Queued(Take(queue, n).1) == Queued(queue)[n..]
  {
    hide Queued, Rest;
    if queue == [] {
      QueuedNil();
    } else if n > 0 {
      var avail, later := Rest(queue[0]), Queued(queue[1..]);
      assert queue == [queue[0]] + queue[1..];
      QueuedCons(queue[0], queue[1..]);
      if n < |avail| {
        var c := Chunk(queue[0].bytes, queue[0].offset + n);
        QueuedCons(c, queue[1..]);
        SplitInside(avail, later, n);
        RestAfter(queue[0], n);
      } else {
        SplitPast(avail, later, n);
        TakeIs(queue[1..], n - |avail|);
      }
    }
  }

  lemma {:induction false} QueuedPush(queue: seq<Chunk>, text: Bytes)
    ensures Queued(queue + [Chunk(text, 0)]) == Queued(queue) + text
  {
    hide Queued, Rest;
    var c := Chunk(text, 0);
    RestWhole(text);
    if queue == [] {
      QueuedNil();
      assert queue + [c] == [c] + [];
      QueuedCons(c, []);
    } else {
      var rest := queue[1..];
      QueuedPush(rest, text);
      assert queue == [queue[0]] + rest && queue + [c] == [queue[0]] + (rest + [c]);
      QueuedCons(queue[0], rest);
      QueuedCons(queue[0], rest + [c]);
    }
  }

  lemma RestWhole(text: Bytes)
    ensures Rest(Chunk(text, 0)) == text
  {
  }

  // ---- safety ------------------------------------------------------------------------------------------

  /** How many slots are filled. */
  function Filled(frags: seq<Bytes>): nat {
    if frags == [] then 0 else Filled(frags[..|frags| - 1]) + if frags[|frags| - 1] == [] then 0 else 1
  }

  lemma {:induction false} FilledAll(frags: seq<Bytes>)
    ensures Filled(frags) <= |frags|
    ensures Filled(frags) == |frags| <==> forall i :: 0 <= i < |frags| ==> frags[i] != []
  {
    if frags != [] {
      FilledAll(frags[..|frags| - 1]);
    }
  }

  lemma {:induction false} FilledSet(frags: seq<Bytes>, i: nat, text: Bytes)
    requires i < |frags| && frags[i] == [] && text != []
    ensures Filled(frags[i := text]) == Filled(frags) + 1
  {
    var n := |frags| - 1;
    if i < n {
      FilledSet(frags[..n], i, text);
      assert frags[i := text][..n] == frags[..n][i := text];
    } else {
      assert frags[i := text][..n] == frags[..n];
    }
  }

  lemma {:induction false} FilledBlank(n: nat)
    ensures Filled(Blank(n)) == 0
  {
    if n > 0 {
      FilledBlank(n - 1);
      assert Blank(n)[..n - 1] == Blank(n - 1);
    }
  }

  /** A message under assembly: every slot is blank or holds its fragment. */
  ghost predicate PartialOk(msg: Bytes, p: Partial) {
    && p.total == |p.frags| == Total(|msg|)
    && (forall i :: 0 <= i < |p.frags| ==> p.frags[i] == [] || p.frags[i] == Fragment(msg, i))
    && (|msg| > 0 ==> p.received == Filled(p.frags))
  }

  /** What has been handed out and what is queued are together the first `next` messages. */
  ghost predicate Safe(sent: seq<Bytes>, out: Bytes, r: Rx) {
    && r.next <= |sent|
    && out + Queued(r.queue) == Concat(sent[..r.next])
    && r.bytes == |Queued(r.queue)|
    && forall s :: s in r.pending && s >= r.next ==> s < |sent| && PartialOk(sent[s], r.pending[s])
  }

  lemma CompleteIs(msg: Bytes, p: Partial)
    requires PartialOk(msg, p) && p.received == p.total
    ensures Concat(p.frags) == msg
  {
    FilledAll(p.frags);
    assert p.frags == Fragments(msg);
    Reassemble(msg);
  }

  /** Delivering the next message. */
  lemma DeliverSafe(sent: seq<Bytes>, out: Bytes, r: Rx, pending: map<nat, Partial>)
    requires Safe(sent, out, r) && r.next < |sent|
    requires forall s :: s in pending && s > r.next ==> s in r.pending && pending[s] == r.pending[s]
    ensures Safe(sent, out, Deliver(r, sent[r.next]).(pending := pending, next := r.next + 1))
  {
    hide PartialOk, Rest;
    var text := sent[r.next];
    QueuedPush(r.queue, text);
    assert sent[..r.next + 1][..r.next] == sent[..r.next];
    assert Concat(sent[..r.next + 1]) == Concat(sent[..r.next]) + text;
    assert out + (Queued(r.queue) + text) == out + Queued(r.queue) + text;
  }

  lemma {:induction false} DrainSafe(sent: seq<Bytes>, out: Bytes, r: Rx)
    requires Safe(sent, out, r)
    ensures Safe(sent, out, DrainPending(r))
    decreases |r.pending|
  {
    if r.next in r.pending && r.pending[r.next].received == r.pending[r.next].total {
      CompleteIs(sent[r.next], r.pending[r.next]);
      DeliverSafe(sent, out, r, r.pending - {r.next});
      DrainSafe(sent, out, PopNext(r));
    }
  }

  lemma FillOk(msg: Bytes, p: Partial, idx: nat, first: bool)
    requires idx < Total(|msg|) && (if first then p == Partial(0, 0, []) else PartialOk(msg, p))
    ensures PartialOk(msg, Fill(p, Total(|msg|), idx, Fragment(msg, idx)))
  {
    hide Fragment, Total, Filled;
    var q := if p.total == 0 then Partial(Total(|msg|), p.received, Blank(Total(|msg|))) else p;
    FilledBlank(Total(|msg|));
    assert PartialOk(msg, q);
    if |msg| > 0 && q.frags[idx] == [] {
      FilledSet(q.frags, idx, Fragment(msg, idx));
    }
  }

  /** Any frame of any message sent so far, at any time, keeps the stream right. */
  lemma HandleSafe(p: Pipe, sent: seq<Bytes>, out: Bytes, r: Rx, s: nat, i: nat)
    requires Safe(sent, out, r) && s < |sent| && Fits(sent[s]) && i < Total(|sent[s]|)
    ensures Safe(sent, out, HandleData(p, r, Frame(p, sent[s], s, i)))
  {
    hide Fragment, Crypt, Concat, Queued, Fits, Filled, Fill, PartialOk, DrainPending, Total;
    var d := Frame(p, sent[s], s, i);
    var msg := sent[s];
    FrameIs(p, msg, s, i);
    var r1 := Noted(r, d);
    if s < r.next {
    } else if d.total == 1 && s == r.next {
      OneFragment(msg);
      DeliverSafe(sent, out, r1, r1.pending);
      DrainSafe(sent, out, Deliver(r1, Plain(p, d)).(next := r.next + 1));
    } else {
      FillOk(msg, if s in r.pending then r.pending[s] else Partial(0, 0, []), i, s !in r.pending);
      DrainSafe(sent, out, Stored(r1, d, Plain(p, d)));
    }
  }

  lemma OneFragment(msg: Bytes)
    ensures Total(|msg|) == 1 ==> Fragment(msg, 0) == msg
  {
  }

  lemma RecvSafe(sent: seq<Bytes>, out: Bytes, r: Rx, n: nat)
    requires Safe(sent, out, r) && n <= r.bytes
    ensures Safe(sent, out + Recv(r, n).0, Recv(r, n).1)
  {
    TakeIs(r.queue, n);
    var q := Queued(r.queue);
    assert out + q[..n] + q[n..] == out + q;
  }

  /** New messages do not disturb old ones. */
  lemma SendSafe(sent: seq<Bytes>, out: Bytes, r: Rx, msg: Bytes)
    requires Safe(sent, out, r)
    ensures Safe(sent + [msg], out, r)
  {
    assert (sent + [msg])[..r.next] == sent[..r.next];
  }
}
