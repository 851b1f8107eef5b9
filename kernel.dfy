/** Propagation: one activation starts with a value at one node, runs that
    node's sequence and, when it runs to the end, hands the result to every
    child in `next`; the pending visits are served first in, first out until
    none is left. A first-in-first-out queue serves every visit of one
    generation before any visit the generation causes, so the activation is
    described here generation by generation. */
module Kernel {
  import opened Values
  import opened Graphs
  import opened Executor

  /** A pending visit: a node and the value it is handed. */
  datatype Visit = Visit(node: NodeRef, value: Value)

  /** The arena is closed (every child exists, every cell a node refers to
      exists) and every edge climbs in rank, so no node can reach itself. The
      ranks are bookkeeping of the model, fixed when a node is made. */
  predicate WfGraph(nodes: seq<Graph>, rank: seq<nat>, ncells: nat)
  {
    |rank| == |nodes| &&
    (forall i :: 0 <= i < |nodes| ==> RefsBelow(nodes[i].cmds, nodes[i].scope, ncells)) &&
    (forall i, j :: 0 <= i < |nodes| && j in nodes[i].next ==> j < |nodes| && rank[i] < rank[j])
  }

  function MaxRank(rank: seq<nat>): (m: nat)
    ensures forall i :: 0 <= i < |rank| ==> rank[i] <= m
    decreases |rank|
  {
    if rank == [] then 0
    else
      var m := MaxRank(rank[1..]);
      assert forall i :: 1 <= i < |rank| ==> rank[i] == rank[1..][i - 1];
      if rank[0] < m then m else rank[0]
  }

  /** The visits a node hands on: one per child, in `next` order, all with the
      same value. */
  function Children(next: seq<NodeRef>, v: Value): (r: seq<Visit>)
    ensures |r| == |next|
    ensures forall i :: 0 <= i < |r| ==> r[i] == Visit(next[i], v)
  {
    seq(|next|, i requires 0 <= i < |next| => Visit(next[i], v))
  }

  /** Serve one visit: run the node's sequence; only a run to the end reaches
      the children. */
  function VisitNode(nodes: seq<Graph>, x: Visit, h: Heap): (Heap, seq<Visit>)
    requires x.node < |nodes| && RefsBelow(nodes[x.node].cmds, nodes[x.node].scope, |h.cells|)
  {
    var o := Exec(x.node, nodes[x.node].cmds, x.value, nodes[x.node].scope, h);
    if o.Continue? then (o.heap, Children(nodes[x.node].next, o.value)) else (o.heap, [])
  }

  /** Serve one generation in order, collecting the next generation after
      `acc`. Every visit of the next generation is of a child of a node served
      now, so its rank is above `gen`. */
  function ProcessLevel(nodes: seq<Graph>, rank: seq<nat>, frontier: seq<Visit>, h: Heap, acc: seq<Visit>, gen: nat): (r: (Heap, seq<Visit>))
    requires WfGraph(nodes, rank, |h.cells|)
    requires forall x :: x in frontier ==> x.node < |nodes| && rank[x.node] >= gen
    requires forall y :: y in acc ==> y.node < |nodes| && rank[y.node] > gen
    ensures |r.0.cells| == |h.cells| && h.log <= r.0.log
    ensures forall y :: y in r.1 ==> y.node < |nodes| && rank[y.node] > gen
    decreases |frontier|
  {
    if frontier == [] then (h, acc)
    else
      var x := frontier[0];
      var (h1, kids) := VisitNode(nodes, x, h);
      assert forall y :: y in kids ==> y.node in nodes[x.node].next;
      ProcessLevel(nodes, rank, frontier[1..], h1, acc + kids, gen)
  }

  /** Serve generation after generation until none is left. Every generation
      climbs at least one rank, so this ends. */
  function Drain(nodes: seq<Graph>, rank: seq<nat>, frontier: seq<Visit>, h: Heap, gen: nat): (r: Heap)
    requires WfGraph(nodes, rank, |h.cells|)
    requires forall x :: x in frontier ==> x.node < |nodes| && rank[x.node] >= gen
    ensures |r.cells| == |h.cells| && h.log <= r.log
    decreases MaxRank(rank) + 1 - gen
  {
    if frontier == [] then h
    else
      assert rank[frontier[0].node] <= MaxRank(rank);
      var (h1, next) := ProcessLevel(nodes, rank, frontier, h, [], gen);
      Drain(nodes, rank, next, h1, gen + 1)
  }

  /** One activation: the value enters at `start`. */
  function Activate(nodes: seq<Graph>, rank: seq<nat>, start: NodeRef, payload: Value, h: Heap): (r: Heap)
    requires WfGraph(nodes, rank, |h.cells|) && start < |nodes|
    ensures |r.cells| == |h.cells| && h.log <= r.log
  {
    Drain(nodes, rank, [Visit(start, payload)], h, rank[start])
  }

  /** No node outside `S` has a child inside `S`: a traversal that starts
      outside `S` can never enter it. */
  predicate Closed(nodes: seq<Graph>, S: set<NodeRef>)
  {
    forall i, j :: 0 <= i < |nodes| && i !in S && j in nodes[i].next ==> j !in S
  }

  /** Every node that writes cell `id` belongs to `S`. */
  predicate WrittenOnlyIn(nodes: seq<Graph>, S: set<NodeRef>, id: ID)
  {
    forall i :: 0 <= i < |nodes| && i !in S ==> !Writes(nodes[i].cmds, id)
  }

  /** From `h` to `r` no node of `S` has acted: no call of theirs was
      recorded and no cell that only they write has changed. */
  predicate Untouched(nodes: seq<Graph>, S: set<NodeRef>, h: Heap, r: Heap)
  {
    |r.cells| == |h.cells| && h.log <= r.log &&
    (forall k :: |h.log| <= k < |r.log| ==> r.log[k].node !in S) &&
    (forall id :: 0 <= id < |h.cells| && WrittenOnlyIn(nodes, S, id) ==> r.cells[id] == h.cells[id])
  }

  lemma UntouchedTrans(nodes: seq<Graph>, S: set<NodeRef>, h1: Heap, h2: Heap, h3: Heap)
    requires Untouched(nodes, S, h1, h2) && Untouched(nodes, S, h2, h3)
    ensures Untouched(nodes, S, h1, h3)
  {
    forall k | |h1.log| <= k < |h3.log|
      ensures h3.log[k].node !in S
    {
      if k < |h2.log| {
        assert h3.log[k] == h2.log[k];
      }
    }
  }

  lemma VisitAvoids(nodes: seq<Graph>, rank: seq<nat>, x: Visit, h: Heap, S: set<NodeRef>)
    requires WfGraph(nodes, rank, |h.cells|) && x.node < |nodes|
    requires Closed(nodes, S) && x.node !in S
    ensures var (r, kids) := VisitNode(nodes, x, h);
      Untouched(nodes, S, h, r) && forall y :: y in kids ==> y.node !in S
  {
    var g := nodes[x.node];
    forall id | 0 <= id < |h.cells| && WrittenOnlyIn(nodes, S, id)
      ensures Exec(x.node, g.cmds, x.value, g.scope, h).heap.cells[id] == h.cells[id]
    {
      ExecFrame(x.node, g.cmds, x.value, g.scope, h, id);
    }
  }

  lemma {:induction false} ProcessLevelAvoids(nodes: seq<Graph>, rank: seq<nat>, frontier: seq<Visit>, h: Heap, acc: seq<Visit>, gen: nat, S: set<NodeRef>)
    requires WfGraph(nodes, rank, |h.cells|)
    requires forall x :: x in frontier ==> x.node < |nodes| && rank[x.node] >= gen
    requires forall y :: y in acc ==> y.node < |nodes| && rank[y.node] > gen
    requires Closed(nodes, S)
    requires forall x :: x in frontier ==> x.node !in S
    requires forall y :: y in acc ==> y.node !in S
    ensures var (r, next) := ProcessLevel(nodes, rank, frontier, h, acc, gen);
      Untouched(nodes, S, h, r) && forall y :: y in next ==> y.node !in S
    decreases |frontier|
  {
    if frontier != [] {
      var x := frontier[0];
      var (h1, kids) := VisitNode(nodes, x, h);
      VisitAvoids(nodes, rank, x, h, S);
      assert forall y :: y in kids ==> y.node in nodes[x.node].next;
      ProcessLevelAvoids(nodes, rank, frontier[1..], h1, acc + kids, gen, S);
      UntouchedTrans(nodes, S, h, h1, ProcessLevel(nodes, rank, frontier[1..], h1, acc + kids, gen).0);
    }
  }

  /** The first generation of a traversal that avoids `S`, and what is left
      of the traversal after it. */
  lemma LevelAvoids(nodes: seq<Graph>, rank: seq<nat>, frontier: seq<Visit>, h: Heap, gen: nat, S: set<NodeRef>)
      returns (p: (Heap, seq<Visit>))
    requires WfGraph(nodes, rank, |h.cells|) && frontier != []
    requires forall x :: x in frontier ==> x.node < |nodes| && rank[x.node] >= gen
    requires Closed(nodes, S)
    requires forall x :: x in frontier ==> x.node !in S
    ensures WfGraph(nodes, rank, |p.0.cells|) && gen < MaxRank(rank) + 1
    ensures forall y :: y in p.1 ==> y.node < |nodes| && rank[y.node] >= gen + 1 && y.node !in S
    ensures Untouched(nodes, S, h, p.0)
    ensures Drain(nodes, rank, frontier, h, gen) == Drain(nodes, rank, p.1, p.0, gen + 1)
  {
    assert rank[frontier[0].node] <= MaxRank(rank);
    p := ProcessLevel(nodes, rank, frontier, h, [], gen);
    ProcessLevelAvoids(nodes, rank, frontier, h, [], gen, S);
  }

  /** A traversal whose pending visits all lie outside a closed set `S` never
      runs a node of `S`: it records no call of theirs and leaves every cell
      that only they write as it was. */
  lemma {:induction false} DrainAvoids(nodes: seq<Graph>, rank: seq<nat>, frontier: seq<Visit>, h: Heap, gen: nat, S: set<NodeRef>)
    requires WfGraph(nodes, rank, |h.cells|)
    requires forall x :: x in frontier ==> x.node < |nodes| && rank[x.node] >= gen
    requires Closed(nodes, S)
    requires forall x :: x in frontier ==> x.node !in S
    ensures Untouched(nodes, S, h, Drain(nodes, rank, frontier, h, gen))
    decreases MaxRank(rank) + 1 - gen
  {
    if frontier != [] {
      var p := LevelAvoids(nodes, rank, frontier, h, gen, S);
      DrainAvoids(nodes, rank, p.1, p.0, gen + 1, S);
      UntouchedTrans(nodes, S, h, p.0, Drain(nodes, rank, p.1, p.0, gen + 1));
    }
  }

  /** A generation of one visit: serve it, then drain what it hands on. */
  lemma DrainOne(nodes: seq<Graph>, rank: seq<nat>, x: Visit, h: Heap, gen: nat)
    requires WfGraph(nodes, rank, |h.cells|)
    requires x.node < |nodes| && rank[x.node] >= gen
    ensures var (h1, kids) := VisitNode(nodes, x, h);
      (forall y :: y in kids ==> y.node < |nodes| && rank[y.node] >= gen + 1) &&
      Drain(nodes, rank, [x], h, gen) == Drain(nodes, rank, kids, h1, gen + 1)
  {
    var (h1, kids) := VisitNode(nodes, x, h);
    assert forall y :: y in kids ==> y.node in nodes[x.node].next;
    assert [x][1..] == [];
    assert ProcessLevel(nodes, rank, [x], h, [], gen) == ProcessLevel(nodes, rank, [], h1, [] + kids, gen);
    assert [] + kids == kids;
  }

  /** A node whose sequence is one command: its verdict decides alone. */
  lemma SingleVisit(nodes: seq<Graph>, x: Visit, h: Heap)
    requires x.node < |nodes| && RefsBelow(nodes[x.node].cmds, nodes[x.node].scope, |h.cells|)
    requires |nodes[x.node].cmds| == 1
    ensures CmdRefBelow(nodes[x.node].cmds[0], |h.cells|)
    ensures var o := Step(x.node, nodes[x.node].cmds[0], x.value, nodes[x.node].scope, h);
      VisitNode(nodes, x, h) == if o.Continue? then (o.heap, Children(nodes[x.node].next, o.value)) else (o.heap, [])
  {
    var g := nodes[x.node];
    assert g.cmds[1..] == [];
    var o1 := Step(x.node, g.cmds[0], x.value, g.scope, h);
    assert Exec(x.node, g.cmds, x.value, g.scope, h) == (if o1.Stop? then o1 else Exec(x.node, g.cmds[1..], o1.value, g.scope, o1.heap));
  }

  /** A visit that hands on nothing ends the activation with its heap. */
  lemma DrainStop(nodes: seq<Graph>, rank: seq<nat>, x: Visit, h: Heap, gen: nat, h1: Heap)
    requires WfGraph(nodes, rank, |h.cells|)
    requires x.node < |nodes| && rank[x.node] >= gen
    requires VisitNode(nodes, x, h) == (h1, [])
    ensures Drain(nodes, rank, [x], h, gen) == h1
  {
    DrainOne(nodes, rank, x, h, gen);
  }

  /** A visit that hands its result on to one child: the activation goes on
      from that child, one generation later. */
  lemma DrainPass(nodes: seq<Graph>, rank: seq<nat>, x: Visit, h: Heap, gen: nat, h1: Heap, y: Visit)
    requires WfGraph(nodes, rank, |h.cells|)
    requires x.node < |nodes| && rank[x.node] >= gen
    requires VisitNode(nodes, x, h) == (h1, [y])
    ensures y.node < |nodes| && rank[y.node] >= gen + 1 && |h1.cells| == |h.cells|
    ensures Drain(nodes, rank, [x], h, gen) == Drain(nodes, rank, [y], h1, gen + 1)
  {
    DrainOne(nodes, rank, x, h, gen);
    assert y in [y];
  }
}
