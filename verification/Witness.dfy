/** The third-party witness of a stream: it sees which messages pass, and complains once about
    each one that seems to be missing. */
module Witness {

  datatype Wit = Wit(seen: set<nat>, nacked: set<nat>, maxSeen: nat, lowWalk: nat, anySeen: bool)

  const EMPTY_WIT := Wit({}, {}, 0, 0, false)

  // ---- the two operations ---------------------------------------------------------------------

  /** Skips the numbers seen without a gap, forgetting them. */
  function Walk(w: Wit): Wit
    decreases |w.seen|
  {
    if w.lowWalk in w.seen then
      ShrinkSeen(w.seen, w.lowWalk);
      Walk(w.(seen := w.seen - {w.lowWalk}, lowWalk := w.lowWalk + 1))
    else w
  }

  lemma ShrinkSeen(s: set<nat>, x: nat)
    requires x in s
    ensures |s - {x}| < |s|
  {
  }

  function Observe(w: Wit, s: nat): Wit {
    Walk(w.(seen := w.seen + {s}, maxSeen := if !w.anySeen || s > w.maxSeen then s else w.maxSeen, anySeen := true))
  }

  /** The numbers from lo on, below lo + n, that are neither seen nor already complained about. */
  function Gaps(w: Wit, n: nat): seq<nat> {
    if n == 0 then [] else
      var s := w.lowWalk + n - 1;
      Gaps(w, n - 1) + if s in w.seen || s in w.nacked then [] else [s]
  }

  function Width(w: Wit): nat {
    if w.anySeen && w.lowWalk < w.maxSeen then w.maxSeen - w.lowWalk else 0
  }

  function Elements(due: seq<nat>): set<nat> {
    set s | s in due
  }

  lemma ElementsPush(due: seq<nat>, s: nat)
    ensures Elements(due + [s]) == Elements(due) + {s}
  {
  }

  function Drain(w: Wit): (r: (Wit, seq<nat>)) {
    var due := Gaps(w, Width(w));
    (w.(nacked := w.nacked + Elements(due)), due)
  }

  // ---- what they keep -----------------------------------------------------------------------------

  /** `observed`: every number that ever passed. */
  ghost predicate WitOk(w: Wit, observed: set<nat>) {
    && (forall s :: 0 <= s < w.lowWalk ==> s in observed)
    && (forall s :: s in observed && s >= w.lowWalk ==> s in w.seen)
    && w.seen <= observed
    && (w.anySeen <==> observed != {})
    && (w.anySeen ==> w.maxSeen in observed)
    && (forall s :: s in observed ==> s <= w.maxSeen)
  }

  lemma {:induction false} WalkOk(w: Wit, observed: set<nat>)
    requires WitOk(w, observed)
    ensures WitOk(Walk(w), observed) && Walk(w).nacked == w.nacked && Walk(w).lowWalk !in Walk(w).seen
    decreases |w.seen|
  {
    if w.lowWalk in w.seen {
      ShrinkSeen(w.seen, w.lowWalk);
      WalkOk(w.(seen := w.seen - {w.lowWalk}, lowWalk := w.lowWalk + 1), observed);
    }
  }

  lemma ObserveOk(w: Wit, observed: set<nat>, s: nat)
    requires WitOk(w, observed)
    ensures WitOk(Observe(w, s), observed + {s}) && Observe(w, s).nacked == w.nacked
  {
    WalkOk(w.(seen := w.seen + {s}, maxSeen := if !w.anySeen || s > w.maxSeen then s else w.maxSeen, anySeen := true),
           observed + {s});
  }

  lemma {:induction false} GapsAre(w: Wit, n: nat)
    ensures forall s :: s in Gaps(w, n) <==> w.lowWalk <= s < w.lowWalk + n && s !in w.seen && s !in w.nacked
    ensures forall i, j :: 0 <= i < j < |Gaps(w, n)| ==> Gaps(w, n)[i] < Gaps(w, n)[j]
  {
    if n > 0 {
      GapsAre(w, n - 1);
      var rest := Gaps(w, n - 1);
      assert forall i :: 0 <= i < |rest| ==> rest[i] in rest;
      var s := w.lowWalk + n - 1;
      assert Gaps(w, n) == rest + if s in w.seen || s in w.nacked then [] else [s];
      forall t ensures t in Gaps(w, n) <==> w.lowWalk <= t < w.lowWalk + n && t !in w.seen && t !in w.nacked {
        assert t in Gaps(w, n) <==> t in rest || (t == s && !(s in w.seen || s in w.nacked));
      }
    }
  }

  /** A drain complains about exactly the numbers that never passed, below one that did, and
      that nobody complained about yet; about each once. */
  lemma DrainIs(w: Wit, observed: set<nat>)
    requires WitOk(w, observed)
    ensures var (w', due) := Drain(w);
      && WitOk(w', observed)
      && (forall s: nat :: s in due <==> s !in observed && s !in w.nacked && exists t :: t in observed && t > s)
      && (forall i, j :: 0 <= i < j < |due| ==> due[i] != due[j])
      && w'.nacked == w.nacked + Elements(due)
  {
    GapsAre(w, Width(w));
    var due := Drain(w).1;
    forall s: nat ensures s in due <==> s !in observed && s !in w.nacked && exists t :: t in observed && t > s {
      if s in due {
        assert w.maxSeen in observed && w.maxSeen > s;
      }
    }
  }

  // ---- over a whole run -------------------------------------------------------------------------------

  datatype WitEvent = Passed(s: nat) | Idle

  function WitAfter(es: seq<WitEvent>): Wit {
    if es == [] then EMPTY_WIT else
      var w := WitAfter(es[..|es| - 1]);
      match es[|es| - 1]
      case Passed(s) => Observe(w, s)
      case Idle => Drain(w).0
  }

  /** Everything complained about in a run, in order. */
  function Complaints(es: seq<WitEvent>): seq<nat> {
    if es == [] then [] else
      var before := Complaints(es[..|es| - 1]);
      match es[|es| - 1]
      case Passed(_) => before
      case Idle => before + Drain(WitAfter(es[..|es| - 1])).1
  }

  function Observed(es: seq<WitEvent>): set<nat> {
    if es == [] then {} else
      Observed(es[..|es| - 1]) + match es[|es| - 1] case Passed(s) => {s} case Idle => {}
  }

  lemma {:induction false} RunWit(es: seq<WitEvent>)
    ensures WitOk(WitAfter(es), Observed(es))
    ensures WitAfter(es).nacked == Elements(Complaints(es))
    ensures forall i, j :: 0 <= i < j < |Complaints(es)| ==> Complaints(es)[i] != Complaints(es)[j]
  {
    if es != [] {
      var n := |es| - 1;
      RunWit(es[..n]);
      var w := WitAfter(es[..n]);
      match es[n]
      case Passed(s) => ObserveOk(w, Observed(es[..n]), s);
      case Idle =>
        DrainIs(w, Observed(es[..n]));
        assert Observed(es) == Observed(es[..n]);
        var a, b := Complaints(es[..n]), Drain(w).1;
        forall i, j | 0 <= i < j < |a + b| ensures (a + b)[i] != (a + b)[j] {
          if i < |a| <= j {
            assert a[i] in w.nacked && b[j - |a|] in b;
          }
        }
    }
  }

  /** One complaint per number, ever. */
  lemma OneComplaintEach(es: seq<WitEvent>)
    ensures forall i, j :: 0 <= i < j < |Complaints(es)| ==> Complaints(es)[i] != Complaints(es)[j]
  {
    RunWit(es);
  }

  /** At an idle tick, a number is complained about if and only if it has not passed, a later
      one has, and there was no complaint before. */
  lemma ComplaintIff(es: seq<WitEvent>, s: nat)
    ensures s in Drain(WitAfter(es)).1
       <==> s !in Observed(es) && s !in Complaints(es) && exists t :: t in Observed(es) && t > s
  {
    RunWit(es);
    DrainIs(WitAfter(es), Observed(es));
  }

  // ---- the object ----------------------------------------------------------------------------------------

  class WitnessState {
    var seen: set<nat>
    var nacked: set<nat>
    var maxSeen: nat
    var lowWalk: nat
    var anySeen: bool

    function State(): Wit
      reads this
    {
      Wit(seen, nacked, maxSeen, lowWalk, anySeen)
    }

    constructor ()
      ensures State() == EMPTY_WIT
    {
      seen, nacked, maxSeen, lowWalk, anySeen := {}, {}, 0, 0, false;
    }

    method WitnessObserve(s: nat)
      modifies this
      ensures State() == Observe(old(State()), s)
    {
      seen := seen + {s};
      if !anySeen || s > maxSeen {
        maxSeen := s;
      }
      anySeen := true;
      while lowWalk in seen
        invariant Walk(State()) == Observe(old(State()), s)
        decreases |seen|
      {
        ShrinkSeen(seen, lowWalk);
        seen := seen - {lowWalk};
        lowWalk := lowWalk + 1;
      }
    }

    method WitnessDrain() returns (due: seq<nat>)
      modifies this
      ensures State() == Drain(old(State())).0 && due == Drain(old(State())).1
    {
      due := [];
      ghost var w := State();
      assert w.nacked + Elements([]) == w.nacked;
      if !anySeen {
        return;
      }
      var s := lowWalk;
      while s < maxSeen
        invariant lowWalk <= s && (if lowWalk <= maxSeen then s <= maxSeen else s == lowWalk)
        invariant State() == w.(nacked := w.nacked + Elements(due))
        invariant due == Gaps(w, s - lowWalk) && forall t :: t in due ==> t < s
      {
        if s !in seen && s !in nacked {
          ElementsPush(due, s);
          nacked := nacked + {s};
          due := due + [s];
        }
        s := s + 1;
      }
    }
  }
}
