/** What a receiver has depends only on which frames arrived, not on their order or number;
    and nothing that arrived is ever asked for again. */
module BusDelivery {
  import opened BusFrames
  import opened BusReceiver

  ghost predicate AllNonEmpty(sent: seq<Bytes>) {
    forall s :: 0 <= s < |sent| ==> |sent[s]| > 0 && Fits(sent[s])
  }

  /** (s, i) names a fragment of a message sent so far. */
  predicate IsFragment(sent: seq<Bytes>, k: Key) {
    k.0 < |sent| && k.1 < Total(|sent[k.0]|)
  }

  predicate Held(r: Rx, k: Key) {
    k.0 in r.pending && k.1 < |r.pending[k.0].frags| && r.pending[k.0].frags[k.1] != []
  }

  /** Exactly the fragments in `arrived` were delivered or are held. */
  ghost predicate Holds(sent: seq<Bytes>, arrived: set<Key>, r: Rx) {
    forall k: Key :: IsFragment(sent, k) ==> (k in arrived <==> k.0 < r.next || Held(r, k))
  }

  /** The next message is not complete. */
  ghost predicate Stuck(r: Rx) {
    r.next in r.pending ==> r.pending[r.next].received != r.pending[r.next].total
  }

  ghost predicate Seen(sent: seq<Bytes>, arrived: set<Key>, r: Rx) {
    && (forall k :: k in arrived ==> r.anySeen && k.0 <= r.maxSeen)
    && (r.anySeen ==> r.maxSeen < |sent|)
    && (forall s :: s in r.pending && s >= r.next ==> r.anySeen && s <= r.maxSeen)
  }

  ghost predicate NotAskedFor(arrived: set<Key>, r: Rx) {
    forall k :: k in r.nack ==> k !in arrived
  }

  /** The receiver's state after the fragments in `arrived`, all messages non-empty. */
  ghost predicate Exact(sent: seq<Bytes>, out: Bytes, arrived: set<Key>, r: Rx) {
    && AllNonEmpty(sent) && Safe(sent, out, r) && Stuck(r)
    && Holds(sent, arrived, r) && Seen(sent, arrived, r) && NotAskedFor(arrived, r)
  }

  lemma FilledOne(frags: seq<Bytes>, i: nat)
    requires Filled(frags) == |frags| && i < |frags|
    ensures frags[i] != []
  {
    FilledAll(frags);
  }

  /** Handing over complete messages changes nothing about what has arrived. */
  lemma {:induction false} DrainHolds(sent: seq<Bytes>, out: Bytes, arrived: set<Key>, r: Rx)
    requires AllNonEmpty(sent) && Safe(sent, out, r) && Holds(sent, arrived, r) && Seen(sent, arrived, r)
    ensures var r' := DrainPending(r);
      Safe(sent, out, r') && Stuck(r') && Holds(sent, arrived, r') && Seen(sent, arrived, r') && r'.nack == r.nack
    decreases |r.pending|
  {
    hide Fragment, Total, Filled, Concat, Queued, Fits;
    DrainSafe(sent, out, r);
    if r.next in r.pending && r.pending[r.next].received == r.pending[r.next].total {
      var p, r' := r.pending[r.next], PopNext(r);
      CompleteIs(sent[r.next], p);
      DeliverSafe(sent, out, r, r.pending - {r.next});
      forall k: Key | IsFragment(sent, k) ensures k in arrived <==> k.0 < r'.next || Held(r', k) {
        if k.0 == r.next {
          FilledOne(p.frags, k.1);
        }
      }
      DrainHolds(sent, out, arrived, r');
    }
  }

  lemma FillHolds(msg: Bytes, p: Partial, idx: nat, first: bool, j: nat)
    requires |msg| > 0 && idx < Total(|msg|) && j < Total(|msg|)
    requires if first then p == Partial(0, 0, []) else PartialOk(msg, p)
    ensures !first ==> |p.frags| == Total(|msg|)
    ensures var q := Fill(p, Total(|msg|), idx, Fragment(msg, idx));
      |q.frags| == Total(|msg|) && (q.frags[j] != [] <==> j == idx || (!first && p.frags[j] != []))
  {
    hide Total, Fragment, Filled;
  }

  /** A frame that arrives, again or for the first time. */
  lemma HandleExact(p: Pipe, sent: seq<Bytes>, out: Bytes, arrived: set<Key>, r: Rx, s: nat, i: nat)
    requires Exact(sent, out, arrived, r) && IsFragment(sent, (s, i))
    ensures Exact(sent, out, arrived + {(s, i)}, HandleData(p, r, Frame(p, sent[s], s, i)))
  {
    hide Fragment, Crypt, Concat, Queued, Fits, Filled, Fill, PartialOk, DrainPending, Total, Safe, Frame, Plain;
    var msg, d := sent[s], Frame(p, sent[s], s, i);
    var arrived' := arrived + {(s, i)};
    FrameIs(p, msg, s, i);
    HandleSafe(p, sent, out, r, s, i);
    var r1 := Noted(r, d);
    SafeNext(sent, out, r);
    if s < r.next {
      assert (s, i) in arrived;
      assert arrived' == arrived;
    } else if d.total == 1 && s == r.next {
      var r2 := Deliver(r1, Plain(p, d)).(next := r.next + 1);
      DeliverOne(p, sent, out, r, s, i);
      forall k: Key | IsFragment(sent, k) ensures k in arrived' <==> k.0 < r2.next || Held(r2, k) {
        if k.0 == s {
          assert k == (s, i);
        }
      }
      DrainHolds(sent, out, arrived', r2);
    } else {
      var r2 := Stored(r1, d, Plain(p, d));
      var was := if s in r.pending then r.pending[s] else Partial(0, 0, []);
      StoreOne(p, sent, out, r, s, i);
      forall k: Key | IsFragment(sent, k) ensures k in arrived' <==> k.0 < r2.next || Held(r2, k) {
        if k.0 == s {
          FillHolds(msg, was, i, s !in r.pending, k.1);
        }
      }
      DrainHolds(sent, out, arrived', r2);
    }
  }

  lemma SafeNext(sent: seq<Bytes>, out: Bytes, r: Rx)
    requires Safe(sent, out, r)
    ensures r.next <= |sent| && forall s :: s in r.pending && s >= r.next ==>
      s < |sent| && PartialOk(sent[s], r.pending[s])
  {
  }

  lemma DeliverOne(p: Pipe, sent: seq<Bytes>, out: Bytes, r: Rx, s: nat, i: nat)
    requires Safe(sent, out, r) && IsFragment(sent, (s, i)) && Fits(sent[s]) && s == r.next && Total(|sent[s]|) == 1
    ensures var d := Frame(p, sent[s], s, i);
      i == 0 && Safe(sent, out, Deliver(Noted(r, d), Plain(p, d)).(next := r.next + 1))
  {
    hide Fragment, Crypt, Concat, Queued, Fits, Filled, PartialOk, Frame, Plain;
    FrameIs(p, sent[s], s, i);
    OneFragment(sent[s]);
    var r1 := Noted(r, Frame(p, sent[s], s, i));
    NotedSafe(sent, out, r, Frame(p, sent[s], s, i));
    DeliverSafe(sent, out, r1, r1.pending);
  }

  lemma NotedSafe(sent: seq<Bytes>, out: Bytes, r: Rx, d: Datagram)
    requires Safe(sent, out, r)
    ensures Safe(sent, out, Noted(r, d))
  {
  }

  lemma StoreOne(p: Pipe, sent: seq<Bytes>, out: Bytes, r: Rx, s: nat, i: nat)
    requires Safe(sent, out, r) && IsFragment(sent, (s, i)) && Fits(sent[s]) && s >= r.next
    ensures var d := Frame(p, sent[s], s, i);
      var was := if s in r.pending then r.pending[s] else Partial(0, 0, []);
      var r2 := Stored(Noted(r, d), d, Plain(p, d));
      && Safe(sent, out, r2) && r2.pending == r.pending[s := Fill(was, Total(|sent[s]|), i, Fragment(sent[s], i))]
  {
    hide Fragment, Crypt, Concat, Queued, Fits, Filled, Fill, PartialOk, Frame, Plain, Total;
    FrameIs(p, sent[s], s, i);
    FillOk(sent[s], if s in r.pending then r.pending[s] else Partial(0, 0, []), i, s !in r.pending);
  }

  // ---- order does not matter ------------------------------------------------------------------------

  /** Once every fragment of the first n messages has arrived, all of them are delivered. */
  lemma Complete(sent: seq<Bytes>, out: Bytes, arrived: set<Key>, r: Rx, n: nat)
    requires Exact(sent, out, arrived, r) && n <= |sent|
    requires forall k: Key :: IsFragment(sent, k) && k.0 < n ==> k in arrived
    ensures r.next >= n
  {
    if r.next < n {
      hide Fragment, Total, Filled, Concat, Queued, Fits;
      var s := r.next;
      assert IsFragment(sent, (s, 0)) && (s, 0) in arrived;
      assert s in r.pending;
      var p := r.pending[s];
      forall i | 0 <= i < |p.frags| ensures p.frags[i] != [] {
        assert IsFragment(sent, (s, i)) && (s, i) in arrived;
      }
      FilledAll(p.frags);
      assert false;
    }
  }

  /** Everything delivered has arrived. */
  lemma Delivered(sent: seq<Bytes>, out: Bytes, arrived: set<Key>, r: Rx, k: Key)
    requires Exact(sent, out, arrived, r) && IsFragment(sent, k) && k.0 < r.next
    ensures k in arrived
  {
  }

  /** Two receivers that got the same set of frames, in whatever order and however often, are
      equally far, and have handed out or queued the same bytes. */
  lemma OrderDoesNotMatter(sent: seq<Bytes>, arrived: set<Key>, out1: Bytes, r1: Rx, out2: Bytes, r2: Rx)
    requires Exact(sent, out1, arrived, r1) && Exact(sent, out2, arrived, r2)
    ensures r1.next == r2.next
    ensures out1 + Queued(r1.queue) == out2 + Queued(r2.queue)
  {
    SafeNext(sent, out1, r1);
    SafeNext(sent, out2, r2);
    Complete(sent, out1, arrived, r1, r2.next);
    Complete(sent, out2, arrived, r2, r1.next);
  }
}
