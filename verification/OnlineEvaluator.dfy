/** The online program of one party: the tables of wires, opened values and opened shares,
    and the loops that fill them. */
module OnlineProgram {
  import opened Circuits
  import opened Sharing
  import opened Dealing
  import opened Offline
  import opened Aggregation
  import opened BoolPacking
  import opened Online
  import opened MacCheck
  import opened ZMod

  // ---- cutting and exchanging -----------------------------------------------------------------------

  /** The chunk of a vector that goes to party pid. */
  method CutChunk(x: seq<int>, nP: nat, pid: nat) returns (part: seq<int>)
    requires 0 < pid <= nP
    ensures part == Chunk(x, nP, pid)
  {
    ChunksAbut(|x|, nP, pid);
    var start, len := ChunkStart(|x|, nP, pid), ChunkLen(|x|, nP, pid);
    part := [];
    for i := 0 to len
      invariant part == x[start..][..i]
    {
      part := part + [x[start + i]];
    }
  }

  /** Vectors that may be sent: over the two-element ring their elements are bits. */
  ghost predicate MayCarry(m: nat, xs: seq<seq<int>>) {
    m == 2 ==> forall p :: 0 <= p < |xs| ==> AreBits(xs[p])
  }

  lemma ReducedBits(v: seq<int>)
    requires forall i :: 0 <= i < |v| ==> 0 <= v[i] < 2
    ensures AreBits(v)
  {
  }

  lemma ChunkMayCarry(m: nat, xs: seq<seq<int>>, nP: nat, pid: nat, p: nat)
    requires MayCarry(m, xs) && p < |xs| && 0 < pid <= nP
    ensures m == 2 ==> AreBits(Chunk(xs[p], nP, pid))
  {
    ChunksAbut(|xs[p]|, nP, pid);
    hide ChunkStart, ChunkLen;
  }

  /** Party pid gets its chunk from everybody else, packed over the two-element ring, and adds
      up. */
  method SumOwn(m: nat, nP: nat, xs: seq<seq<int>>, total: nat, pid: nat) returns (sums: seq<int>)
    requires m > 0 && |xs| == nP && 0 < pid <= nP && SameLength(xs, total) && MayCarry(m, xs)
    ensures sums == Part(m, xs, total, nP, pid)
  {
    hide AreBits, MayCarry, Chunk;
    var cut: seq<seq<int>> := [];
    for p := 0 to nP
      invariant |cut| == p && forall q :: 0 <= q < p ==> cut[q] == Chunk(xs[q], nP, pid)
    {
      var c := CutChunk(xs[p], nP, pid);
      if p + 1 != pid {
        ChunkMayCarry(m, xs, nP, pid, p);
        c := Carry(m, c);
      }
      cut := cut + [c];
    }
    assert cut == Chunks(xs, nP, pid);
    var agg := SumChunk(m, cut, ChunkLen(total, nP, pid));
    sums := agg[..];
  }

  lemma PartReduced(m: nat, xs: seq<seq<int>>, total: nat, nP: nat, pid: nat)
    requires m > 0 && 0 < pid <= nP && SameLength(xs, total)
    ensures forall i :: 0 <= i < ChunkLen(total, nP, pid) ==> 0 <= Part(m, xs, total, nP, pid)[i] < m
  {
    forall i | 0 <= i < ChunkLen(total, nP, pid) ensures 0 <= Part(m, xs, total, nP, pid)[i] < m {
      SumModIsSum(m, Slice(Chunks(xs, nP, pid), i));
    }
  }

  /** Party id gets the sums of the other chunks, packed again, and puts them in place. */
  method Gather(m: nat, nP: nat, parts: seq<seq<int>>, id: nat, total: nat, ghost xs: seq<seq<int>>)
    returns (agg: seq<int>)
    requires m > 0 && |xs| == nP && 0 < id <= nP && SameLength(xs, total)
    requires parts == ChunkSums(m, xs, total, nP, nP)
    ensures agg == ColumnSums(m, xs, total)
  {
    var got: seq<seq<int>> := [];
    for p := 0 to nP
      invariant |got| == p && forall q :: 0 <= q < p ==> got[q] == parts[q]
    {
      var c := parts[p];
      if p + 1 != id {
        PartReduced(m, xs, total, nP, p + 1);
        c := Carry(m, c);
      }
      got := got + [c];
    }
    assert got == parts;
    var a := Assemble(m, total, nP, got, xs);
    agg := a[..];
  }

  /** One opening as the nP programs carry it out: chunks go to the parties, sums come back,
      and each party has the vector of sums.  Over the two-element ring whatever goes from one
      party to another is packed eight to a byte. */
  method Exchange(m: nat, nP: nat, xs: seq<seq<int>>, total: nat) returns (aggs: seq<seq<int>>)
    requires m > 0 && |xs| == nP > 0 && SameLength(xs, total) && MayCarry(m, xs)
    ensures |aggs| == nP && forall p :: 0 <= p < nP ==> aggs[p] == ColumnSums(m, xs, total)
  {
    var parts: seq<seq<int>> := [];
    for pid := 1 to nP + 1
      invariant |parts| == pid - 1
      invariant forall p :: 0 <= p < |parts| ==> parts[p] == Part(m, xs, total, nP, p + 1)
    {
      var sums := SumOwn(m, nP, xs, total, pid);
      parts := parts + [sums];
    }
    assert parts == ChunkSums(m, xs, total, nP, nP);
    aggs := [];
    for id := 1 to nP + 1
      invariant |aggs| == id - 1 && forall p :: 0 <= p < |aggs| ==> aggs[p] == ColumnSums(m, xs, total)
    {
      var agg := Gather(m, nP, parts, id, total, xs);
      aggs := aggs + [agg];
    }
  }

  // ---- groups ---------------------------------------------------------------------------------------

  lemma InGroupStep(gates: seq<Gate>, items: seq<Item>, j: nat, k: nat)
    requires ItemsOk(gates, items) && j < |items|
    ensures InGroup(gates, items[..j + 1], k)
         == InGroup(gates, items[..j], k) + if Group(gates[items[j].w]) == k then [items[j]] else []
  {
    assert items[..j + 1][..j] == items[..j];
  }

  lemma NoGroups(gates: seq<Gate>, items: seq<Item>)
    requires ItemsOk(gates, items)
    ensures items[..0] == [] && forall k :: InGroup(gates, items[..0], k) == []
  {
  }

  lemma GroupsStep(gates: seq<Gate>, items: seq<Item>, k: nat)
    requires ItemsOk(gates, items)
    ensures Groups(gates, items, k + 1) == Groups(gates, items, k) + InGroup(gates, items, k)
    ensures Groups(gates, items, 0) == []
  {
  }

  /** What a party may send for the interactive gates of a list. */
  lemma SendOk(x: Ctx, tabs: seq<Table>, items: seq<Item>, j: nat)
    requires CtxOk(x) && ItemsOk(x.gates, items) && CanSendAll(x, tabs, CommOrder(x.gates, items)) && j < |items|
    requires Interactive(x.gates[items[j].w])
    ensures CanSend(x, tabs, items[j])
  {
    hide CanSend, CommOrder;
    PlaceIsOwn(x.gates, items, j);
  }

  class OnlineEvaluator {
    const x: Ctx
    const id: nat
    const tabs: seq<Table>
    var wires: map<Item, int>
    var qVal: map<Item, int>
    var qSh: map<Item, Auth>

    ghost predicate Valid() {
      CtxOk(x) && 0 < id <= x.c.nP
    }

    function View(): Online.View
      reads this
    {
      Online.View(wires, qVal, qSh)
    }

    constructor (x: Ctx, id: nat, tabs: seq<Table>, start: Online.View)
      requires CtxOk(x) && 0 < id <= x.c.nP
      ensures Valid() && this.x == x && this.id == id && this.tabs == tabs && View() == start
    {
      this.x, this.id, this.tabs := x, id, tabs;
      wires, qVal, qSh := start.wires, start.qVal, start.qSh;
    }

    /** The shares of the level's interactive gates, one list for each group. */
    ghost predicate Grouped(items: seq<Item>, bits: map<Item, int>, groups: seq<seq<Auth>>)
      reads this
      requires Valid() && ItemsOk(x.gates, items)
    {
      |groups| == 5 && forall k :: 0 <= k < 5 ==> GroupIs(items, bits, groups[k], k)
    }

    ghost predicate GroupIs(items: seq<Item>, bits: map<Item, int>, shares: seq<Auth>, k: nat)
      reads this
      requires Valid() && ItemsOk(x.gates, items)
    {
      var its := InGroup(x.gates, items, k);
      && |shares| == |its|
      && forall q :: 0 <= q < |its| ==>
         CanSend(x, tabs, its[q]) && shares[q] == ItemShare(x, id, tabs, wires, bits, its[q])
    }

    /** First pass over a level: the party's share of every interactive gate, from wires of
        lower levels only. */
    method PartySend(items: seq<Item>, bits: map<Item, int>) returns (shares: seq<Auth>, sent: seq<int>)
      requires Valid() && ItemsOk(x.gates, items) && CanSendAll(x, tabs, CommOrder(x.gates, items))
      ensures shares == ItemShares(x, id, tabs, wires, bits, CommOrder(x.gates, items))
      ensures sent == SentVector(x, id, CommOrder(x.gates, items), shares)
    {
      hide CanSend, ItemShare, InGroup, Groups;
      var groups := seq(5, _ => []);
      NoGroups(x.gates, items);
      for j := 0 to |items|
        invariant Grouped(items[..j], bits, groups)
      {
        var k := Group(x.gates[items[j].w]);
        forall q | 0 <= q < 5 ensures InGroup(x.gates, items[..j + 1], q)
          == InGroup(x.gates, items[..j], q) + if k == q then [items[j]] else []
        {
          InGroupStep(x.gates, items, j, q);
        }
        if k < 5 {
          SendOk(x, tabs, items, j);
          groups := groups[k := groups[k] + [ItemShare(x, id, tabs, wires, bits, items[j])]];
        }
      }
      assert items[..|items|] == items;
      shares := Concatenate(items, bits, groups);
      sent := [];
      var order := CommOrder(x.gates, items);
      for j := 0 to |shares|
        invariant |sent| == j && forall i :: 0 <= i < j ==> sent[i] == Add(x.m, shares[i].value, x.pad(order[i], id))
      {
        sent := sent + [Add(x.m, shares[j].value, x.pad(order[j], id))];
      }
    }

    /** The five lists, one after the other. */
    method Concatenate(items: seq<Item>, bits: map<Item, int>, groups: seq<seq<Auth>>) returns (shares: seq<Auth>)
      requires Valid() && ItemsOk(x.gates, items) && CanSendAll(x, tabs, CommOrder(x.gates, items))
      requires Grouped(items, bits, groups)
      ensures shares == ItemShares(x, id, tabs, wires, bits, CommOrder(x.gates, items))
    {
      hide CanSend, ItemShare, InGroup, Groups;
      shares := [];
      GroupsStep(x.gates, items, 0);
      for k := 0 to 5
        invariant |shares| == |Groups(x.gates, items, k)|
        invariant forall q :: 0 <= q < |shares| ==> var it := Groups(x.gates, items, k)[q];
          CanSend(x, tabs, it) && shares[q] == ItemShare(x, id, tabs, wires, bits, it)
      {
        GroupsStep(x.gates, items, k);
        shares := shares + groups[k];
      }
    }

    /** How many gates of each group the level has. */
    method CountGroups(items: seq<Item>) returns (counts: seq<nat>)
      requires Valid() && ItemsOk(x.gates, items)
      ensures |counts| == 5 && forall k :: 0 <= k < 5 ==> counts[k] == |InGroup(x.gates, items, k)|
    {
      hide InGroup;
      counts := [0, 0, 0, 0, 0];
      NoGroups(x.gates, items);
      for j := 0 to |items|
        invariant |counts| == 5 && forall k :: 0 <= k < 5 ==> counts[k] == |InGroup(x.gates, items[..j], k)|
      {
        var k := Group(x.gates[items[j].w]);
        forall q | 0 <= q < 5 ensures |InGroup(x.gates, items[..j + 1], q)|
          == |InGroup(x.gates, items[..j], q)| + if k == q then 1 else 0
        {
          InGroupStep(x.gates, items, j, q);
        }
        if k < 5 {
          counts := counts[k := counts[k] + 1];
        }
      }
      assert items[..|items|] == items;
    }

    /** Where each group begins in the opened vector. */
    method Offsets(items: seq<Item>, counts: seq<nat>) returns (offs: seq<nat>)
      requires Valid() && ItemsOk(x.gates, items) && |counts| == 5
      requires forall k :: 0 <= k < 5 ==> counts[k] == |InGroup(x.gates, items, k)|
      ensures |offs| == 5 && forall k :: 0 <= k < 5 ==> offs[k] == |Groups(x.gates, items, k)|
    {
      hide InGroup, Groups;
      GroupsStep(x.gates, items, 0);
      GroupsStep(x.gates, items, 1);
      GroupsStep(x.gates, items, 2);
      GroupsStep(x.gates, items, 3);
      offs := [0, counts[0], counts[0] + counts[1], counts[0] + counts[1] + counts[2],
               counts[0] + counts[1] + counts[2] + counts[3]];
    }

    /** Second pass over a level: the opened values are read back, each group with its own
        counter, and the wires are written.  `received` is what arrived for the sums `agg`. */
    method PartyRecv(items: seq<Item>, bits: map<Item, int>, shares: seq<Auth>, received: seq<int>, ghost agg: seq<int>)
      requires Valid() && ItemsOk(x.gates, items)
      requires |shares| == |received| == |agg| == |CommOrder(x.gates, items)|
      requires forall q :: 0 <= q < |agg| ==> received[q] == Add(x.m, agg[q], x.shift(CommOrder(x.gates, items)[q]))
      modifies this
      ensures View() == PartyAfter(x, items, shares, agg, bits, old(View()))
    {
      hide InGroup, Groups, WireVal, WiresAfter, QValAfter, QShAfter;
      var counts := CountGroups(items);
      var offs := Offsets(items, counts);
      var idx := [0, 0, 0, 0, 0];
      NoGroups(x.gates, items);
      NothingRead(x, items, agg, shares, bits, View());
      for j := 0 to |items|
        invariant |idx| == 5 && forall k :: 0 <= k < 5 ==> idx[k] == |InGroup(x.gates, items[..j], k)|
        invariant wires == WiresAfter(x, items, j, agg, bits, old(wires))
        invariant qVal == QValAfter(x, items, j, agg, old(qVal))
        invariant qSh == QShAfter(x, items, j, shares, old(qSh))
      {
        var it := items[j];
        var k := Group(x.gates[it.w]);
        forall q | 0 <= q < 5 ensures |InGroup(x.gates, items[..j + 1], q)|
          == |InGroup(x.gates, items[..j], q)| + if k == q then 1 else 0
        {
          InGroupStep(x.gates, items, j, q);
        }
        GateRead(x, items, j, agg, shares, bits, old(View()));
        var q := 0;
        if k < 5 {
          PlaceIsOwn(x.gates, items, j);
          q := received[offs[k] + idx[k]];
          qVal := qVal[it := q];
          qSh := qSh[it := shares[offs[k] + idx[k]]];
          idx := idx[k := idx[k] + 1];
        }
        wires := wires[it := WireVal(x, it, q, Get(bits, it), wires)];
      }
    }

    /** The check: every opened gate contributes with fresh common factors. */
    method MacOmega(order: seq<Item>, rho: nat -> int, key: int) returns (omega: int)
      requires Valid() && ItemsOk(x.gates, order)
      ensures omega == Omega(x, order, |order|, rho, key, View())
    {
      omega := 0;
      var drawn := 0;
      for j := 0 to |order|
        invariant drawn == DrawsBefore(x.gates, order, j) && omega == Omega(x, order, j, rho, key, View())
      {
        var it := order[j];
        var g := x.gates[it.w];
        var term := Term(x.m, Get(qVal, it), key, GetSh(qSh, it).tag);
        ghost var before, start := omega, drawn;
        // The cases run on into the next: product, scalar product, three factors, four.
        if g.Mul2? {
          omega := Add(x.m, omega, Mul(x.m, rho(drawn), term));
          drawn := drawn + 1;
        }
        assert omega == AddDraws(x.m, before, rho, start, drawn - start, term);
        if g.Mul2? || (g.Simd? && !g.trunc) {
          omega := Add(x.m, omega, Mul(x.m, rho(drawn), term));
          drawn := drawn + 1;
        }
        assert omega == AddDraws(x.m, before, rho, start, drawn - start, term);
        if g.Mul2? || (g.Simd? && !g.trunc) || g.Mul3? {
          omega := Add(x.m, omega, Mul(x.m, rho(drawn), term));
          drawn := drawn + 1;
        }
        assert omega == AddDraws(x.m, before, rho, start, drawn - start, term);
        if g.Mul2? || (g.Simd? && !g.trunc) || g.Mul3? || g.Mul4? {
          omega := Add(x.m, omega, Mul(x.m, rho(drawn), term));
          drawn := drawn + 1;
        }
        assert omega == AddDraws(x.m, before, rho, start, drawn - start, term);
        assert drawn - start == Draws(g);
      }
    }

    /** The announced masks are taken off the output wires. */
    method GetOutputs(outputs: seq<Wire>, masks: seq<int>) returns (out: seq<int>)
      requires Valid() && |masks| == |outputs|
      ensures |out| == |outputs|
      ensures forall o :: 0 <= o < |out| ==> out[o] == Sub(x.m, Get(wires, Item(0, outputs[o])), masks[o])
    {
      out := [];
      for o := 0 to |outputs|
        invariant |out| == o
        invariant forall i :: 0 <= i < o ==> out[i] == Sub(x.m, Get(wires, Item(0, outputs[i])), masks[i])
      {
        out := out + [Sub(x.m, Get(wires, Item(0, outputs[o])), masks[o])];
      }
    }
  }

  lemma NothingRead(x: Ctx, items: seq<Item>, agg: seq<int>, shares: seq<Auth>, bits: map<Item, int>, v: Online.View)
    requires CtxOk(x) && ItemsOk(x.gates, items) && |shares| == |agg| == |CommOrder(x.gates, items)|
    ensures WiresAfter(x, items, 0, agg, bits, v.wires) == v.wires
    ensures QValAfter(x, items, 0, agg, v.qVal) == v.qVal && QShAfter(x, items, 0, shares, v.qSh) == v.qSh
  {
  }

  /** One more gate read back. */
  lemma GateRead(x: Ctx, items: seq<Item>, j: nat, agg: seq<int>, shares: seq<Auth>, bits: map<Item, int>,
                 v: Online.View)
    requires CtxOk(x) && ItemsOk(x.gates, items) && |shares| == |agg| == |CommOrder(x.gates, items)| && j < |items|
    ensures var it, before := items[j], WiresAfter(x, items, j, agg, bits, v.wires);
      && WiresAfter(x, items, j + 1, agg, bits, v.wires)
         == before[it := WireVal(x, it, Opened(x, items, j, agg), Get(bits, it), before)]
      && if Interactive(x.gates[it.w]) then
           && Place(x.gates, items, j) < |agg| && CommOrder(x.gates, items)[Place(x.gates, items, j)] == it
           && Opened(x, items, j, agg) == Add(x.m, agg[Place(x.gates, items, j)], x.shift(it))
           && QValAfter(x, items, j + 1, agg, v.qVal)
              == QValAfter(x, items, j, agg, v.qVal)[it := Opened(x, items, j, agg)]
           && QShAfter(x, items, j + 1, shares, v.qSh)
              == QShAfter(x, items, j, shares, v.qSh)[it := shares[Place(x.gates, items, j)]]
         else
           && Opened(x, items, j, agg) == 0
           && QValAfter(x, items, j + 1, agg, v.qVal) == QValAfter(x, items, j, agg, v.qVal)
           && QShAfter(x, items, j + 1, shares, v.qSh) == QShAfter(x, items, j, shares, v.qSh)
  {
    hide Place, CommOrder;
    if Interactive(x.gates[items[j].w]) {
      PlaceIsOwn(x.gates, items, j);
    }
  }

  // ---- all programs together ----------------------------------------------------------------------------

  /** Programs 1..nP, with their tables and views. */
  ghost predicate Running(x: Ctx, tabs: seq<seq<Table>>, parties: seq<OnlineEvaluator>, views: seq<Online.View>)
    requires CtxOk(x)
    reads parties
  {
    && |parties| == x.c.nP && |tabs| == |views| == x.c.nP + 1
    && (forall p, q :: 0 <= p < q < |parties| ==> parties[p] != parties[q])
    && forall p :: 0 <= p < |parties| ==>
      parties[p].x == x && parties[p].id == p + 1 && parties[p].tabs == tabs[p + 1] && parties[p].View() == views[p + 1]
  }

  /** Everybody computes and sends. */
  method SendAll(x: Ctx, tabs: seq<seq<Table>>, parties: seq<OnlineEvaluator>, bits: map<Item, int>, items: seq<Item>,
                 ghost views: seq<Online.View>)
    returns (xs: seq<seq<int>>, shares: seq<seq<Auth>>)
    requires CtxOk(x) && JointOk(x, tabs, items) && Running(x, tabs, parties, views)
    ensures xs == SentAll(x, tabs, views, bits, items) && |shares| == x.c.nP
    ensures forall p :: 0 <= p < x.c.nP ==> shares[p] == PartyShares(x, tabs, p + 1, views[p + 1].wires, bits, items)
  {
    hide CanSend, ItemShares, SentVector, CommOrder, SentAll, PartyShares;
    xs, shares := [], [];
    ghost var goal := SentAll(x, tabs, views, bits, items);
    for p := 0 to |parties|
      invariant |xs| == |shares| == p && xs == goal[..p]
      invariant forall q :: 0 <= q < p ==> shares[q] == PartyShares(x, tabs, q + 1, views[q + 1].wires, bits, items)
    {
      SentAt(x, tabs, views, bits, items, p);
      assert parties[p].View() == views[p + 1];
      var sh, sent := parties[p].PartySend(items, bits);
      xs, shares := xs + [sent], shares + [sh];
    }
  }

  lemma SentAt(x: Ctx, tabs: seq<seq<Table>>, views: seq<Online.View>, bits: map<Item, int>, items: seq<Item>, p: nat)
    requires CtxOk(x) && JointOk(x, tabs, items) && |views| == x.c.nP + 1 && p < x.c.nP
    ensures var order := CommOrder(x.gates, items);
      && PartyShares(x, tabs, p + 1, views[p + 1].wires, bits, items)
         == ItemShares(x, p + 1, tabs[p + 1], views[p + 1].wires, bits, order)
      && SentAll(x, tabs, views, bits, items)[p]
         == SentVector(x, p + 1, order, PartyShares(x, tabs, p + 1, views[p + 1].wires, bits, items))
  {
    hide CanSend, ItemShares, SentVector, CommOrder;
  }

  /** What arrives: the sums, changed if somebody interferes. */
  method Deliver(x: Ctx, items: seq<Item>, agg: seq<int>) returns (received: seq<int>)
    requires CtxOk(x) && ItemsOk(x.gates, items) && |agg| == |CommOrder(x.gates, items)|
    ensures |received| == |agg|
    ensures forall q :: 0 <= q < |agg| ==> received[q] == Add(x.m, agg[q], x.shift(CommOrder(x.gates, items)[q]))
  {
    var order := CommOrder(x.gates, items);
    received := [];
    for q := 0 to |agg|
      invariant |received| == q && forall i :: 0 <= i < q ==> received[i] == Add(x.m, agg[i], x.shift(order[i]))
    {
      received := received + [Add(x.m, agg[q], x.shift(order[q]))];
    }
  }

  lemma SentMayCarry(x: Ctx, tabs: seq<seq<Table>>, views: seq<Online.View>, bits: map<Item, int>, items: seq<Item>)
    requires CtxOk(x) && JointOk(x, tabs, items) && |views| == x.c.nP + 1
    ensures MayCarry(x.m, SentAll(x, tabs, views, bits, items))
  {
    hide CanSend, CommOrder, ItemShare;
    var xs := SentAll(x, tabs, views, bits, items);
    if x.m == 2 {
      forall p | 0 <= p < |xs| ensures AreBits(xs[p]) {
        SentAt(x, tabs, views, bits, items, p);
        ReducedBits(xs[p]);
      }
    }
  }

  /** One level run by all programs is one step of the joint model. */
  method RunLevel(x: Ctx, tabs: seq<seq<Table>>, parties: seq<OnlineEvaluator>, bits: map<Item, int>, items: seq<Item>,
                  ghost views: seq<Online.View>)
    requires CtxOk(x) && JointOk(x, tabs, items) && Running(x, tabs, parties, views)
    modifies parties
    ensures Running(x, tabs, parties, Step(x, tabs, bits, items, views))
  {
    var xs, shares := SendAll(x, tabs, parties, bits, items, views);
    ghost var agg0 := OpenedAll(x, tabs, views, bits, items);
    SentMayCarry(x, tabs, views, bits, items);
    var aggs := Exchange(x.m, x.c.nP, xs, |CommOrder(x.gates, items)|);
    assert forall p :: 0 <= p < |aggs| ==> aggs[p] == agg0;
    ghost var after := Step(x, tabs, bits, items, views);
    hide Step, OpenedAll, CanSendAll, PartyShares, CommOrder, SentAll;
    StepAt(x, tabs, bits, items, views);
    for p := 0 to |parties|
      invariant forall q :: 0 <= q < |parties| ==>
        parties[q].View() == if q < p then after[q + 1] else views[q + 1]
    {
      var received := Deliver(x, items, aggs[p]);
      parties[p].PartyRecv(items, bits, shares[p], received, agg0);
    }
  }

  lemma StepAt(x: Ctx, tabs: seq<seq<Table>>, bits: map<Item, int>, items: seq<Item>, views: seq<Online.View>)
    requires CtxOk(x) && JointOk(x, tabs, items) && |views| == x.c.nP + 1
    ensures var agg, after := OpenedAll(x, tabs, views, bits, items), Step(x, tabs, bits, items, views);
      && after[0] == views[0]
      && forall i :: 1 <= i <= x.c.nP ==>
        after[i] == PartyAfter(x, items, PartyShares(x, tabs, i, views[i].wires, bits, items), agg, bits, views[i])
  {
    hide JointOk, PartyAfter;
  }

  /** The check run by all programs: the dealer's sum, with which everybody compares zero. */
  method MacVerification(x: Ctx, tabs: seq<seq<Table>>, parties: seq<OnlineEvaluator>, order: seq<Item>,
                         rho: nat -> int, keys: seq<int>, ghost views: seq<Online.View>) returns (res: int)
    requires CtxOk(x) && ItemsOk(x.gates, order) && Running(x, tabs, parties, views) && |keys| == x.c.nP + 1
    ensures res == Residue(x, order, rho, keys, views)
  {
    hide Omega;
    res := 0;
    ghost var omegas := Omegas(x, order, |order|, rho, keys, views);
    for p := 0 to |parties|
      invariant res == SumMod(x.m, omegas[..p])
    {
      var omega := parties[p].MacOmega(order, rho, keys[p + 1]);
      assert omegas[..p + 1][..p] == omegas[..p];
      res := Add(x.m, res, omega);
    }
    assert omegas[..|parties|] == omegas;
  }
}
