/** The sending end of one stream: what is kept for retransmission, for how long, and how a
    request for a fragment is answered. */
module BusSender {
  import opened BusFrames
  import opened BusReceiver

  /** How many messages' fragments are kept. */
  const CAP_STREAMS: nat := 4096

  datatype TxRecord = TxRecord(total: nat, payload: Bytes, nacks: nat)

  /** `order` lists the kept messages, oldest first; `inFlight` those still being sent. */
  datatype Tx = Tx(localSeq: nat, buf: map<Key, TxRecord>, order: seq<nat>, inFlight: set<nat>, poisoned: bool)

  const EMPTY_TX := Tx(0, map[], [], {}, false)

  function Begin(t: Tx): Tx {
    t.(localSeq := t.localSeq + 1, inFlight := t.inFlight + {t.localSeq})
  }

  function Finish(t: Tx, s: nat): Tx {
    t.(inFlight := t.inFlight - {s})
  }

  /** All fragments of message s are forgotten. */
  function Forget(buf: map<Key, TxRecord>, s: nat): (b: map<Key, TxRecord>)
    ensures forall k :: k in b <==> k in buf && k.0 != s
    ensures forall k :: k in b ==> b[k] == buf[k]
  {
    map k | k in buf && k.0 != s :: buf[k]
  }

  /** Drops the oldest messages until at most CAP_STREAMS entries are left. */
  function Evict(order: seq<nat>, buf: map<Key, TxRecord>): (r: (seq<nat>, map<Key, TxRecord>)) {
    if |order| <= CAP_STREAMS then (order, buf) else Evict(order[1..], Forget(buf, order[0]))
  }

  /** Keeps a fragment; the first fragment of a message also enters the message in the list. */
  function Insert(t: Tx, k: Key, d: Datagram, first: bool): Tx {
    var buf := t.buf[k := TxRecord(d.total, d.payload, 0)];
    if first then
      var (order, kept) := Evict(t.order + [k.0], buf);
      t.(order := order, buf := kept)
    else t.(buf := buf)
  }

  /** What is sent again. */
  function Resent(k: Key, rec: TxRecord): Datagram {
    Datagram(k.0, k.1, rec.total, rec.payload)
  }

  datatype Answer = Nothing | Again(d: Datagram) | Poison

  /** The answer to a request: retransmission up to the cap; silence for what is not there
      yet; the end of the pipe beyond the cap and for what was evicted. */
  function HandleNack(t: Tx, k: Key, cap: nat): (r: (Answer, Tx)) {
    if t.poisoned then (Nothing, t)
    else if k in t.buf then
      var rec := t.buf[k].(nacks := t.buf[k].nacks + 1);
      var t1 := t.(buf := t.buf[k := rec]);
      if rec.nacks > cap then (Poison, t1.(poisoned := true)) else (Again(Resent(k, rec)), t1)
    else if k.0 >= t.localSeq || k.0 in t.inFlight then (Nothing, t)
    else (Poison, t.(poisoned := true))
  }

  // ---- retention ---------------------------------------------------------------------------------

  /** The last entries of the list of all messages ever entered. */
  function LastOf(log: seq<nat>): (r: seq<nat>)
    ensures |r| <= CAP_STREAMS && |r| <= |log|
  {
    if |log| <= CAP_STREAMS then log else log[|log| - CAP_STREAMS..]
  }

  function DroppedOf(log: seq<nat>): (r: seq<nat>) {
    if |log| <= CAP_STREAMS then [] else log[..|log| - CAP_STREAMS]
  }

  /** `log` is the history of the list.  The list holds its last entries; a fragment ever
      inserted is still kept, as it was sent, unless its message is among the older ones. */
  ghost predicate Retains(p: Pipe, sent: seq<Bytes>, log: seq<nat>, inserted: set<Key>, t: Tx) {
    && t.order == LastOf(log)
    && (forall k :: k in inserted ==> IsSent(sent, k) && (k in t.buf || k.0 in DroppedOf(log)))
    && (forall k :: k in t.buf ==> k in inserted && IsSent(sent, k) && SameFrame(p, sent, k, t.buf[k]))
  }

  predicate IsSent(sent: seq<Bytes>, k: Key) {
    k.0 < |sent| && k.1 < Total(|sent[k.0]|) && k.1 < 65536
  }

  ghost predicate SameFrame(p: Pipe, sent: seq<Bytes>, k: Key, rec: TxRecord)
    requires IsSent(sent, k)
  {
    Resent(k, rec) == Frame(p, sent[k.0], k.0, k.1)
  }

  lemma {:induction false} EvictKeeps(order: seq<nat>, buf: map<Key, TxRecord>)
    ensures forall k :: k in Evict(order, buf).1 ==> k in buf && Evict(order, buf).1[k] == buf[k]
  {
    if |order| > CAP_STREAMS {
      EvictKeeps(order[1..], Forget(buf, order[0]));
    }
  }

  lemma EvictOne(log: seq<nat>, s: nat, buf: map<Key, TxRecord>)
    ensures var (order, kept) := Evict(LastOf(log) + [s], buf);
      && order == LastOf(log + [s])
      && (|log| < CAP_STREAMS ==> kept == buf && DroppedOf(log + [s]) == DroppedOf(log))
      && (|log| >= CAP_STREAMS ==>
            kept == Forget(buf, (LastOf(log) + [s])[0])
            && DroppedOf(log + [s]) == DroppedOf(log) + [(LastOf(log) + [s])[0]])
  {
    var order := LastOf(log) + [s];
    if |log| >= CAP_STREAMS {
      assert |order| == CAP_STREAMS + 1;
      assert order[1..] == LastOf(log + [s]);
      assert DroppedOf(log + [s]) == DroppedOf(log) + [order[0]];
    }
  }

  /** Keeping the first fragment of a message. */
  lemma InsertRetains(p: Pipe, sent: seq<Bytes>, log: seq<nat>, inserted: set<Key>, t: Tx, k: Key, first: bool)
    requires Retains(p, sent, log, inserted, t) && IsSent(sent, k)
    ensures Retains(p, sent, if first then log + [k.0] else log, inserted + {k},
                    Insert(t, k, Frame(p, sent[k.0], k.0, k.1), first))
  {
    hide Frame, Total, LastOf, DroppedOf, Evict;
    var d := Frame(p, sent[k.0], k.0, k.1);
    var buf := t.buf[k := TxRecord(d.total, d.payload, 0)];
    FrameFields(p, sent[k.0], k.0, k.1);
    EvictOne(log, k.0, buf);
  }

  lemma FrameFields(p: Pipe, msg: Bytes, s: nat, i: nat)
    requires i < Total(|msg|) && i < 65536
    ensures var d := Frame(p, msg, s, i); d == Datagram(s, i, d.total, d.payload)
  {
  }

  /** At most CAP_STREAMS messages are kept. */
  lemma RetainsFew(p: Pipe, sent: seq<Bytes>, log: seq<nat>, inserted: set<Key>, t: Tx)
    requires Retains(p, sent, log, inserted, t)
    ensures |t.order| <= CAP_STREAMS
  {
  }

  /** At least CAP_STREAMS entries follow an entry of message s. */
  ghost predicate LongAgo(log: seq<nat>, s: nat) {
    exists i :: 0 <= i < |log| && i + 4096 < |log| && log[i] == s
  }

  /** A request for a fragment that was sent: the very same frame goes out again, or the
      message was entered so long ago that at least CAP_STREAMS entries followed. */
  lemma AnswerIs(p: Pipe, sent: seq<Bytes>, log: seq<nat>, inserted: set<Key>, t: Tx, k: Key, cap: nat)
    requires Retains(p, sent, log, inserted, t) && k in inserted && !t.poisoned
    ensures var (a, t') := HandleNack(t, k, cap);
      && Retains(p, sent, log, inserted, t')
      && (a.Again? <==> k in t.buf && t.buf[k].nacks < cap)
      && (a.Nothing? <==> k !in t.buf && (k.0 >= t.localSeq || k.0 in t.inFlight))
      && (a.Again? ==> a.d == Frame(p, sent[k.0], k.0, k.1))
      && (a.Poison? ==> (k in t.buf && t.buf[k].nacks >= cap) || LongAgo(log, k.0))
  {
    hide Frame, Total, LastOf;
    if k !in t.buf {
      assert k.0 in DroppedOf(log);
      var i :| 0 <= i < |DroppedOf(log)| && DroppedOf(log)[i] == k.0;
      assert log[i] == k.0;
    }
  }

  /** Any request at all keeps the sender's records right, and is answered with an original
      frame or not at all. */
  lemma NackRetains(p: Pipe, sent: seq<Bytes>, log: seq<nat>, inserted: set<Key>, t: Tx, k: Key, cap: nat)
    requires Retains(p, sent, log, inserted, t)
    ensures var (a, t') := HandleNack(t, k, cap);
      && Retains(p, sent, log, inserted, t')
      && (a.Again? ==> IsSent(sent, k) && a.d == Frame(p, sent[k.0], k.0, k.1) && a.d.seqno == k.0 && a.d.idx == k.1)
      && t'.localSeq == t.localSeq && t'.inFlight == t.inFlight
  {
    hide Frame, Total, LastOf, DroppedOf;
    if k in inserted && !t.poisoned {
      AnswerIs(p, sent, log, inserted, t, k, cap);
    }
  }
}
