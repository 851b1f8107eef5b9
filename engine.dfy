/** The engine in place: the graph lives in the fields of a `Runtime`, every
    cell is a `StateRef` object whose `current` is overwritten when a store
    takes a new value, and stores are objects whose methods rewire the graph.
    Each method is proved to leave the runtime in the state the matching
    function of the `Stores` module computes from the state before. */
module Engine {
  import opened Values
  import opened Graphs
  import opened Executor
  import opened Kernel
  import opened Stores

  /** The contents of the cells, read off the objects. */
  function CellsOf(refs: seq<StateRef>): (c: seq<Value>)
    reads refs
    ensures |c| == |refs| && forall i :: 0 <= i < |refs| ==> c[i] == refs[i].current
  {
    seq(|refs|, i requires 0 <= i < |refs| reads refs => refs[i].current)
  }

  /** `r` is the runtime's own cell with its id. */
  predicate Owned(refs: seq<StateRef>, r: StateRef)
  {
    r.id < |refs| && refs[r.id] == r
  }

  /** Every cell a node's commands or scope name is one of the runtime's own. */
  predicate NodeOwned(refs: seq<StateRef>, g: Graph)
  {
    (forall j :: 0 <= j < |g.cmds| && g.cmds[j].Update? ==> Owned(refs, g.cmds[j].store)) &&
    (forall k :: k in g.scope ==> Owned(refs, g.scope[k]))
  }

  /** A non-empty generation: serve it, then drain the next one. */
  lemma DrainLevel(nodes: seq<Graph>, rank: seq<nat>, frontier: seq<Visit>, h: Heap, gen: nat)
    requires WfGraph(nodes, rank, |h.cells|) && frontier != []
    requires forall x :: x in frontier ==> x.node < |nodes| && rank[x.node] >= gen
    ensures gen < MaxRank(rank) + 1
    ensures Drain(nodes, rank, frontier, h, gen) ==
      Drain(nodes, rank, ProcessLevel(nodes, rank, frontier, h, [], gen).1, ProcessLevel(nodes, rank, frontier, h, [], gen).0, gen + 1)
  {
    assert frontier[0] in frontier;
    assert rank[frontier[0].node] <= MaxRank(rank);
  }

  /** The first visit of a generation: serve it, then the rest. */
  lemma LevelStep(nodes: seq<Graph>, rank: seq<nat>, frontier: seq<Visit>, h: Heap, acc: seq<Visit>, gen: nat)
    requires WfGraph(nodes, rank, |h.cells|) && frontier != []
    requires forall x :: x in frontier ==> x.node < |nodes| && rank[x.node] >= gen
    requires forall y :: y in acc ==> y.node < |nodes| && rank[y.node] > gen
    ensures frontier[0].node < |nodes|
    ensures var (h1, kids) := VisitNode(nodes, frontier[0], h);
      (forall y :: y in acc + kids ==> y.node < |nodes| && rank[y.node] > gen) &&
      ProcessLevel(nodes, rank, frontier, h, acc, gen) == ProcessLevel(nodes, rank, frontier[1..], h1, acc + kids, gen)
  {
    assert frontier[0] in frontier;
    var (h1, kids) := VisitNode(nodes, frontier[0], h);
    assert forall y :: y in kids ==> y.node in nodes[frontier[0].node].next;
  }

  /** Every cell's id is its index among the runtime's cells. */
  predicate Numbered(refs: seq<StateRef>)
  {
    forall i :: 0 <= i < |refs| ==> refs[i].id == i
  }

  /** Every cell a node names is one of the runtime's own. */
  predicate AllOwned(refs: seq<StateRef>, nodes: seq<Graph>)
  {
    forall i :: 0 <= i < |nodes| ==> NodeOwned(refs, nodes[i])
  }

  /** A new cell added at the end leaves every node's cells owned. */
  lemma OwnedGrow(refs: seq<StateRef>, x: StateRef, nodes: seq<Graph>)
    requires AllOwned(refs, nodes)
    ensures AllOwned(refs + [x], nodes)
  {
    forall i | 0 <= i < |nodes|
      ensures NodeOwned(refs + [x], nodes[i])
    {
      var g := nodes[i];
      assert NodeOwned(refs, g);
      forall j | 0 <= j < |g.cmds| && g.cmds[j].Update?
        ensures Owned(refs + [x], g.cmds[j].store)
      {
        assert (refs + [x])[g.cmds[j].store.id] == refs[g.cmds[j].store.id];
      }
      forall k | k in g.scope
        ensures Owned(refs + [x], g.scope[k])
      {
        assert (refs + [x])[g.scope[k].id] == refs[g.scope[k].id];
      }
    }
  }

  /** New nodes naming only owned cells keep the arena owned. */
  lemma OwnedAppend(refs: seq<StateRef>, nodes: seq<Graph>, gs: seq<Graph>)
    requires AllOwned(refs, nodes) && forall k :: 0 <= k < |gs| ==> NodeOwned(refs, gs[k])
    ensures AllOwned(refs, nodes + gs)
  {
    forall i | 0 <= i < |nodes + gs|
      ensures NodeOwned(refs, (nodes + gs)[i])
    {
      if i < |nodes| {
        assert (nodes + gs)[i] == nodes[i];
      } else {
        assert (nodes + gs)[i] == gs[i - |nodes|];
      }
    }
  }

  /** Rewiring a node's children changes none of the cells it names. */
  lemma OwnedRelink(refs: seq<StateRef>, nodes: seq<Graph>, p: NodeRef, next: seq<NodeRef>)
    requires AllOwned(refs, nodes) && p < |nodes|
    ensures AllOwned(refs, nodes[p := nodes[p].(next := next)])
  {
    assert NodeOwned(refs, nodes[p]);
  }

  /** What calling the function `store.watch` returned does: take `node` out
      of `parent`'s children. */
  datatype Subscription = Subscription(parent: NodeRef, node: NodeRef)

  class Runtime {
    var nodes: seq<Graph>
    var rank: seq<nat>
    var refs: seq<StateRef>
    var calls: seq<Call>

    ghost predicate Valid()
      reads this`nodes, this`rank, this`refs
    {
      WfGraph(nodes, rank, |refs|) && Numbered(refs) && AllOwned(refs, nodes)
    }

    /** The runtime seen as a world of the `Stores` module. */
    function State(): World
      reads this, refs
    {
      World(nodes, rank, CellsOf(refs), calls)
    }

    function Cells(): Heap
      reads this, refs
    {
      Heap(CellsOf(refs), calls)
    }

    constructor ()
      ensures Valid() && State() == Empty
    {
      nodes := [];
      rank := [];
      refs := [];
      calls := [];
    }

    /* ---------- Building the graph ---------- */

    /** `createEvent(name)` / `createEffect(name)`: a new node that only marks
        the activation. */
    method CreateUnit(kind: Kind, name: string) returns (u: NodeRef)
      requires Valid()
      modifies this`nodes, this`rank
      ensures Valid() && u == old(|nodes|)
      ensures State() == Stores.CreateUnit(old(State()), kind, name)
    {
      ghost var w := Stores.CreateUnit(State(), kind, name);
      u := |nodes|;
      var g := Graph([], [], [Emit(u, name)], map[], map["unit" := KindName(kind), "name" := name]);
      OwnedAppend(refs, nodes, [g]);
      nodes := nodes + [g];
      rank := rank + [0];
      assert nodes == w.nodes && rank == w.rank;
    }

    /** `createStore(init)`: refused when `init` is undefined; otherwise a
        new cell holding `init` and a root store node that writes it. */
    method CreateStore(init: Value) returns (r: Result<Store>)
      requires Valid()
      modifies this`nodes, this`rank, this`refs
      ensures Valid()
      ensures r.Failure? <==> init == Undef
      ensures r.Failure? ==> nodes == old(nodes) && rank == old(rank) && refs == old(refs)
      ensures r.Ok? ==>
        fresh(r.value) && fresh(r.value.cell) && r.value.rt == this && r.value.node == old(|nodes|) &&
        r.value.cell.id == old(|refs|) && r.value.handlers == map[] && r.value.Valid() &&
        Stores.CreateStore(old(State()), r.value.cell, init) == Ok(State())
    {
      if init == Undef {
        return Failure("store: current state can't be undefined");
      }
      var s := |nodes|;
      var ref := AddStoreNode(init, 2);
      var st := new Store(this, s, ref);
      r := Ok(st);
    }

    /** A new cell holding `init` and a store node at rank `rk` that writes
        it. */
    method AddStoreNode(init: Value, rk: nat) returns (ref: StateRef)
      requires Valid()
      modifies this`nodes, this`rank, this`refs
      ensures Valid() && fresh(ref) && ref.id == old(|refs|)
      ensures State() == Stores.AddStore(old(State()), ref, init, rk)
    {
      var s := |nodes|;
      ref := new StateRef(|refs|, init);
      ghost var w := Stores.AddStore(State(), ref, init, rk);
      var g := Graph([], [], [Update(s, ref)], map[StateKey := ref], map["unit" := KindName(Kind.Store)]);
      ghost var before := CellsOf(refs);
      OwnedGrow(refs, ref, nodes);
      refs := refs + [ref];
      assert CellsOf(refs) == before + [init];
      OwnedAppend(refs, nodes, [g]);
      nodes := nodes + [g];
      rank := rank + [rk];
      assert nodes == w.nodes && rank == w.rank;
    }

    /** The edge node of `store.on(trigger, reducer)`: a child of the trigger
        that reduces the store's state with the payload and hands the result
        to the store. */
    method AddOn(s: NodeRef, ghost cell: StateRef, t: NodeRef, reducer: (Value, Value) -> Value) returns (o: NodeRef)
      requires Valid() && StoreAt(nodes, s, cell) && t < |nodes| && rank[t] + 1 < rank[s]
      modifies this`nodes, this`rank
      ensures Valid() && StoreAt(nodes, s, cell) && o == old(|nodes|)
      ensures State() == Stores.On(old(State()), s, t, reducer)
    {
      ghost var w0 := State();
      StoreKept(w0, w0, s, cell);
      ghost var w := Stores.On(w0, s, t, reducer);
      o := |nodes|;
      var ref := nodes[s].scope[StateKey];
      assert NodeOwned(refs, nodes[s]);
      var g := Graph([t], [s], [Compute(o, ReduceFn(reducer))], map[StateKey := ref], map["op" := "on"]);
      OwnedAppend(refs, nodes, [g]);
      nodes := nodes + [g];
      rank := rank + [rank[t] + 1];
      OwnedRelink(refs, nodes, t, nodes[t].next + [o]);
      nodes := nodes[t := nodes[t].(next := nodes[t].next + [o])];
      assert nodes == w.nodes && rank == w.rank;
      StoreKept(w0, w, s, cell);
    }

    /** The graph work of `.on` by the store `s` writing `cell`, whose edge
        nodes by trigger are `hs`: cut the old edge for `t`, if any, then add
        the new one. */
    method Handle(s: NodeRef, ghost cell: StateRef, t: NodeRef, hs: map<NodeRef, NodeRef>,
                  reducer: (Value, Value) -> Value) returns (o: NodeRef)
      requires Valid() && StoreAt(nodes, s, cell) && t < |nodes| && rank[t] + 1 < rank[s]
      modifies this`nodes, this`rank
      ensures Valid() && StoreAt(nodes, s, cell) && o == old(|nodes|)
      ensures State() == Stores.On(Cleared(old(State()), t, hs), s, t, reducer)
    {
      Release(s, cell, t, hs);
      o := AddOn(s, cell, t, reducer);
    }

    /** The graph work of `.off(t)` by the store `s`: cut the edge node `hs`
        holds for `t`, if there is one. */
    method Release(s: NodeRef, ghost cell: StateRef, t: NodeRef, hs: map<NodeRef, NodeRef>)
      requires Valid() && StoreAt(nodes, s, cell) && t < |nodes|
      modifies this`nodes
      ensures Valid() && StoreAt(nodes, s, cell)
      ensures State() == Cleared(old(State()), t, hs)
    {
      ghost var w := State();
      if t in hs {
        RemoveChild(t, hs[t]);
      }
      StoreKept(w, State(), s, cell);
    }

    /** Take `c` out of the children of `p`: what `.off` and the function a
        `watch` returned both do. */
    method RemoveChild(p: NodeRef, c: NodeRef)
      requires Valid() && p < |nodes|
      modifies this`nodes
      ensures Valid()
      ensures State() == Stores.Unlink(old(State()), p, c)
    {
      ghost var w := Stores.Unlink(State(), p, c);
      OwnedRelink(refs, nodes, p, Without(nodes[p].next, c));
      nodes := nodes[p := nodes[p].(next := Without(nodes[p].next, c))];
      assert nodes == w.nodes;
    }

    /** The graph work of `store.map(fn, initial)`: a new cell seeded from the
        source's state, a derived store node writing it, and an edge node under
        the source that recomputes it. */
    method AddMap(src: NodeRef, ghost cell: StateRef, fn: (Value, Value) -> Value, initial: Value) returns (ref: StateRef)
      requires Valid() && StoreAt(nodes, src, cell)
      modifies this`nodes, this`rank, this`refs
      ensures Valid() && fresh(ref) && ref.id == old(|refs|)
      ensures StoreAt(nodes, src, cell) && StoreAt(nodes, old(|nodes|), ref)
      ensures State() == Stores.Map(old(State()), src, ref, fn, initial)
    {
      assert NodeOwned(refs, nodes[src]);
      var cur := nodes[src].scope[StateKey].current;
      assert cur == GetState(State(), src);
      var seed := if cur == Undef then Undef else fn(cur, initial);
      var d, rk := |nodes|, rank[src] + 2;
      ghost var w0 := State();
      ref := AddStoreNode(seed, rk);
      ghost var w1 := State();
      MapSteps(w0, src, ref, fn, initial, w1);
      StoreKept(w0, w1, src, cell);
      AddMapEdge(w1, src, cell, d, ref, fn);
    }

    /** The edge node of `.map`: a child of the source `src` that recomputes
        the derived store `d`, the last node, from the source's new value. */
    method AddMapEdge(ghost w0: World, src: NodeRef, ghost cell: StateRef, d: NodeRef, ref: StateRef,
                      fn: (Value, Value) -> Value)
      requires Valid() && State() == w0 && StoreAt(nodes, src, cell)
      requires Wf(w0) && src < d && |w0.nodes| == d + 1 && Orphan(w0, d) && w0.nodes[d].next == []
      requires w0.rank[d] == w0.rank[src] + 2 && IsStore(w0, d) && StateOf(w0, d) == ref
      modifies this`nodes, this`rank
      ensures Valid() && StoreAt(nodes, src, cell) && StoreAt(nodes, d, ref)
      ensures State() == Stores.MapEdge(w0, src, d, ref, fn)
    {
      ghost var w := Stores.MapEdge(w0, src, d, ref, fn);
      assert NodeOwned(refs, nodes[d]);
      var g := Graph([src], [d], [Compute(d + 1, MapFn(fn))], map[StateKey := ref], map["op" := "map"]);
      OwnedAppend(refs, nodes, [g]);
      nodes := nodes + [g];
      rank := rank + [rank[src] + 1];
      OwnedRelink(refs, nodes, src, nodes[src].next + [d + 1]);
      nodes := nodes[src := nodes[src].(next := nodes[src].next + [d + 1])];
      assert nodes == w.nodes && rank == w.rank;
      StoreKept(w0, w, src, cell);
      StoreKept(w0, w, d, ref);
    }

    /** `store.watch(fn)`: the callback is called at once with the store's
        state, and a new child of the store calls it on every change. */
    method AddWatch(s: NodeRef) returns (sub: Subscription)
      requires Valid() && IsStore(State(), s)
      modifies this`nodes, this`rank, this`calls
      ensures Valid() && sub == Subscription(s, old(|nodes|))
      ensures State() == Stores.Watch(old(State()), s)
    {
      ghost var w := Stores.Watch(State(), s);
      var n := |nodes|;
      assert NodeOwned(refs, nodes[s]);
      var now := nodes[s].scope[StateKey].current;
      assert now == GetState(State(), s);
      var g := Graph([s], [], [Run(n, Itself)], map[], map["op" := "watch"]);
      OwnedAppend(refs, nodes, [g]);
      nodes := nodes + [g];
      rank := rank + [rank[s] + 1];
      OwnedRelink(refs, nodes, s, nodes[s].next + [n]);
      nodes := nodes[s := nodes[s].(next := nodes[s].next + [n])];
      calls := calls + [Call(n, Itself(now, map[]))];
      assert nodes == w.nodes && rank == w.rank && calls == w.log;
      sub := Subscription(s, n);
    }

    /** `store.watch(unit, fn)`: a new child of the unit that calls the
        callback with the store's state and the unit's payload. */
    method AddUnitWatch(s: NodeRef, u: NodeRef) returns (sub: Subscription)
      requires Valid() && IsStore(State(), s) && u < |nodes|
      modifies this`nodes, this`rank
      ensures Valid() && sub == Subscription(u, old(|nodes|))
      ensures State() == Stores.WatchUnit(old(State()), s, u)
    {
      ghost var w := Stores.WatchUnit(State(), s, u);
      var n := |nodes|;
      var ref := nodes[s].scope[StateKey];
      assert NodeOwned(refs, nodes[s]);
      var g := Graph([u], [], [Run(n, WithState)], map[StateKey := ref], map["op" := "watch"]);
      OwnedAppend(refs, nodes, [g]);
      nodes := nodes + [g];
      rank := rank + [rank[u] + 1];
      OwnedRelink(refs, nodes, u, nodes[u].next + [n]);
      nodes := nodes[u := nodes[u].(next := nodes[u].next + [n])];
      assert nodes == w.nodes && rank == w.rank;
      sub := Subscription(u, n);
    }

    /** Calling the function a watch returned. */
    method Unsubscribe(sub: Subscription)
      requires Valid() && sub.parent < |nodes|
      modifies this`nodes
      ensures Valid()
      ensures State() == Stores.Unsubscribe(old(State()), sub.parent, sub.node)
    {
      RemoveChild(sub.parent, sub.node);
    }

    /* ---------- Running the graph ---------- */

    /** One command, run in place: an `update` overwrites its cell, a `run`
        appends to the record of calls. */
    method RunCmd(node: NodeRef, c: Cmd, v: Value, scope: map<string, StateRef>) returns (stop: bool, out: Value)
      requires Valid() && CmdRefBelow(c, |refs|) && ScopeBelow(scope, |refs|)
      requires c.Update? ==> Owned(refs, c.store)
      requires forall k :: k in scope ==> Owned(refs, scope[k])
      modifies this`calls, refs
      ensures Valid() && nodes == old(nodes) && rank == old(rank) && refs == old(refs)
      ensures var o := Step(node, c, v, scope, old(Cells()));
        Cells() == o.heap && stop == o.Stop? && (o.Continue? ==> out == o.value)
    {
      var sc := map k | k in scope :: scope[k].current;
      assert sc == Snapshot(scope, CellsOf(refs));
      out := v;
      stop := false;
      match c
      case Update(_, store) =>
        if store.current == v {
          stop := true;
        } else {
          ghost var before := CellsOf(refs);
          store.Write(v);
          assert CellsOf(refs) == before[store.id := v];
        }
      case Run(_, fn) =>
        calls := calls + [Call(node, fn(v, sc))];
      case Filter(_, pred) =>
        stop := !pred(v, sc);
      case Emit(_, _) =>
      case Compute(_, fn) =>
        out := fn(v, sc);
        stop := out == Undef;
      case Barrier(_, _) =>
    }

    /** A node's whole sequence, command after command, until one stops it. */
    method RunSeq(node: NodeRef, cmds: seq<Cmd>, v: Value, scope: map<string, StateRef>) returns (stop: bool, out: Value)
      requires Valid() && RefsBelow(cmds, scope, |refs|) && NodeOwned(refs, Graph([], [], cmds, scope, map[]))
      modifies this`calls, refs
      ensures Valid() && nodes == old(nodes) && rank == old(rank) && refs == old(refs)
      ensures var o := Exec(node, cmds, v, scope, old(Cells()));
        Cells() == o.heap && stop == o.Stop? && (o.Continue? ==> out == o.value)
    {
      ghost var goal := Exec(node, cmds, v, scope, Cells());
      var k := 0;
      out := v;
      stop := false;
      while k < |cmds| && !stop
        invariant Valid() && nodes == old(nodes) && rank == old(rank) && refs == old(refs)
        invariant 0 <= k <= |cmds|
        invariant RefsBelow(cmds[k..], scope, |refs|)
        invariant !stop ==> Exec(node, cmds[k..], out, scope, Cells()) == goal
        invariant stop ==> goal.Stop? && goal.heap == Cells()
        decreases |cmds| - k
      {
        RefsBelowSuffix(cmds, scope, |refs|, k + 1);
        ghost var h := Cells();
        assert cmds[k..][0] == cmds[k] && cmds[k..][1..] == cmds[k + 1..];
        var s, o := RunCmd(node, cmds[k], out, scope);
        ghost var st := Step(node, cmds[k], out, scope, h);
        assert Exec(node, cmds[k..], out, scope, h) == if st.Stop? then st else Exec(node, cmds[k + 1..], st.value, scope, st.heap);
        stop, out := s, o;
        k := k + 1;
      }
      if !stop {
        assert cmds[k..] == [];
      }
    }

    /** Serve one visit: run the node, and hand the result to its children
        when the run went to the end. */
    method ServeVisit(x: Visit) returns (kids: seq<Visit>)
      requires Valid() && x.node < |nodes|
      modifies this`calls, refs
      ensures Valid() && nodes == old(nodes) && rank == old(rank) && refs == old(refs)
      ensures Cells() == VisitNode(nodes, x, old(Cells())).0 && kids == VisitNode(nodes, x, old(Cells())).1
    {
      var g := nodes[x.node];
      assert NodeOwned(refs, Graph([], [], g.cmds, g.scope, map[]));
      var stop, out := RunSeq(x.node, g.cmds, x.value, g.scope);
      if stop {
        kids := [];
      } else {
        kids := Children(g.next, out);
      }
    }

    /** Serve one generation in order, collecting the next one. */
    method ServeLevel(frontier: seq<Visit>, gen: nat) returns (next: seq<Visit>)
      requires Valid() && forall x :: x in frontier ==> x.node < |nodes| && rank[x.node] >= gen
      modifies this`calls, refs
      ensures Valid() && nodes == old(nodes) && rank == old(rank) && refs == old(refs)
      ensures forall y :: y in next ==> y.node < |nodes| && rank[y.node] > gen
      ensures Cells() == ProcessLevel(nodes, rank, frontier, old(Cells()), [], gen).0
      ensures next == ProcessLevel(nodes, rank, frontier, old(Cells()), [], gen).1
    {
      ghost var h := Cells();
      ghost var goal := ProcessLevel(nodes, rank, frontier, h, [], gen);
      next := [];
      var i := 0;
      while i < |frontier|
        invariant Valid() && nodes == old(nodes) && rank == old(rank) && refs == old(refs)
        invariant 0 <= i <= |frontier|
        invariant forall y :: y in next ==> y.node < |nodes| && rank[y.node] > gen
        invariant Cells() == h && |h.cells| == |refs|
        invariant ProcessLevel(nodes, rank, frontier[i..], h, next, gen) == goal
        decreases |frontier| - i
      {
        assert frontier[i..][0] == frontier[i] && frontier[i..][1..] == frontier[i + 1..];
        LevelStep(nodes, rank, frontier[i..], h, next, gen);
        var kids := ServeVisit(frontier[i]);
        h := Cells();
        next := next + kids;
        i := i + 1;
      }
      assert frontier[i..] == [];
    }

    /** Serve one generation, and keep the promise of what the whole
        activation leaves behind. */
    method ServeGeneration(pending: seq<Visit>, g: nat, ghost h: Heap, ghost goal: Heap) returns (next: seq<Visit>, ghost h1: Heap)
      requires Valid() && pending != [] && forall x :: x in pending ==> x.node < |nodes| && rank[x.node] >= g
      requires Cells() == h && Drain(nodes, rank, pending, h, g) == goal
      modifies this`calls, refs
      ensures nodes == old(nodes) && rank == old(rank) && refs == old(refs)
      ensures g < MaxRank(rank) + 1
      ensures forall y :: y in next ==> y.node < |nodes| && rank[y.node] >= g + 1
      ensures Cells() == h1 && Drain(nodes, rank, next, h1, g + 1) == goal
    {
      DrainLevel(nodes, rank, pending, h, g);
      next := ServeLevel(pending, g);
      h1 := Cells();
    }

    /** Serve generation after generation, starting from `frontier`, until
        no visit is left. */
    method DrainAll(frontier: seq<Visit>, gen: nat)
      requires Valid() && forall x :: x in frontier ==> x.node < |nodes| && rank[x.node] >= gen
      modifies this`calls, refs
      ensures Valid() && nodes == old(nodes) && rank == old(rank) && refs == old(refs)
      ensures Cells() == Drain(nodes, rank, frontier, old(Cells()), gen)
      decreases MaxRank(rank) + 1 - gen
    {
      if frontier != [] {
        ghost var h := Cells();
        var next, h1 := ServeGeneration(frontier, gen, h, Drain(nodes, rank, frontier, h, gen));
        DrainAll(next, gen + 1);
      }
    }

    /** Calling an event or an effect: the activation runs generation by
        generation until no visit is left, and leaves the runtime in the state
        `Fire` describes. */
    method Launch(u: NodeRef, payload: Value)
      requires Valid() && u < |nodes|
      modifies this`calls, refs
      ensures Valid() && nodes == old(nodes) && rank == old(rank) && refs == old(refs)
      ensures State() == Fire(old(State()), u, payload)
    {
      DrainAll([Visit(u, payload)], rank[u]);
    }
  }

  /** The world after `.off(t)` by a store whose edge nodes are `hs`: the
      edge node it registered for `t`, if there is one, is cut from `t`. */
  function Cleared(w: World, t: NodeRef, hs: map<NodeRef, NodeRef>): (r: World)
    requires Wf(w) && t < |w.nodes|
    ensures Wf(r) && Extends(w, r) && OthersKeepEdges(w, r, t) && |r.nodes| == |w.nodes|
    ensures r.rank == w.rank && r.cells == w.cells && r.log == w.log
    ensures forall j :: j in r.nodes[t].next <==> j in w.nodes[t].next && (t in hs ==> j != hs[t])
  {
    if t in hs then Off(w, t, hs[t]) else w
  }

  /** Node `s` is a store writing `cell`. */
  predicate StoreAt(nodes: seq<Graph>, s: NodeRef, cell: StateRef)
  {
    s < |nodes| && StateKey in nodes[s].scope && nodes[s].scope[StateKey] == cell &&
    |nodes[s].cmds| == 1 && nodes[s].cmds[0].Update? && nodes[s].cmds[0].store == cell
  }

  /** A world that grew out of another keeps its stores. */
  lemma StoreKept(w: World, r: World, s: NodeRef, cell: StateRef)
    requires Extends(w, r) && StoreAt(w.nodes, s, cell)
    ensures StoreAt(r.nodes, s, cell) && IsStore(r, s) && StateOf(r, s) == cell
  {
  }

  /** The edge nodes `hs` of the store `s`, by trigger: each is a child of
      its trigger, that trigger is its only parent, and none is the store. */
  predicate Wired(nodes: seq<Graph>, hs: map<NodeRef, NodeRef>, s: NodeRef)
  {
    forall t :: t in hs ==>
      t < |nodes| && hs[t] < |nodes| && hs[t] != s && hs[t] in nodes[t].next &&
      forall i :: 0 <= i < |nodes| && hs[t] in nodes[i].next ==> i == t
  }

  /** A world grown by new nodes and by new children of `p` only, where a
      new node's children are new nodes or the store `s`, keeps the edge
      nodes of `s` wired. */
  lemma WiredGrow(w: World, r: World, p: NodeRef, extra: seq<NodeRef>, hs: map<NodeRef, NodeRef>, s: NodeRef)
    requires Wired(w.nodes, hs, s) && p < |w.nodes| <= |r.nodes| && OthersKeepEdges(w, r, p)
    requires r.nodes[p].next == w.nodes[p].next + extra && forall j :: j in extra ==> j >= |w.nodes|
    requires forall i, j :: |w.nodes| <= i < |r.nodes| && j in r.nodes[i].next ==> j >= |w.nodes| || j == s
    ensures Wired(r.nodes, hs, s)
  {
    forall t | t in hs
      ensures hs[t] in r.nodes[t].next && forall i :: 0 <= i < |r.nodes| && hs[t] in r.nodes[i].next ==> i == t
    {
      forall i | 0 <= i < |r.nodes| && hs[t] in r.nodes[i].next
        ensures i == t
      {
        assert i < |w.nodes| && hs[t] in w.nodes[i].next;
      }
    }
  }

  /** `.off(t)` keeps the other edge nodes wired, and leaves the one cut
      with no parent. */
  lemma ClearedWired(w: World, t: NodeRef, hs: map<NodeRef, NodeRef>, s: NodeRef)
    requires Wf(w) && t < |w.nodes| && Wired(w.nodes, hs, s)
    ensures Wired(Cleared(w, t, hs).nodes, hs - {t}, s)
    ensures t in hs ==> Orphan(Cleared(w, t, hs), hs[t])
  {
    var r := Cleared(w, t, hs);
    forall k | k in hs - {t}
      ensures hs[k] in r.nodes[k].next && forall i :: 0 <= i < |r.nodes| && hs[k] in r.nodes[i].next ==> i == k
    {
      forall i | 0 <= i < |r.nodes| && hs[k] in r.nodes[i].next
        ensures i == k
      {
        assert hs[k] in w.nodes[i].next;
      }
    }
    if t in hs {
      assert OnlyParent(w, t, hs[t]);
    }
  }

  /** The edge node `.on(t)` adds is wired for `t`, beside the others. */
  lemma OnWired(w: World, s: NodeRef, t: NodeRef, hs: map<NodeRef, NodeRef>, reducer: (Value, Value) -> Value)
    requires Wf(w) && IsStore(w, s) && t < |w.nodes| && w.rank[t] + 1 < w.rank[s]
    requires Wired(w.nodes, hs, s) && t !in hs
    ensures Wired(Stores.On(w, s, t, reducer).nodes, hs[t := |w.nodes|], s)
  {
    var r := Stores.On(w, s, t, reducer);
    WiredGrow(w, r, t, [|w.nodes|], hs, s);
  }

  /** `.on(t)` after an earlier `.on(t)`: the old edge node gives way to the
      new one, and the store's edge nodes stay wired. */
  lemma HandleWired(w: World, s: NodeRef, cell: StateRef, t: NodeRef, hs: map<NodeRef, NodeRef>,
                    reducer: (Value, Value) -> Value)
    requires Wf(w) && StoreAt(w.nodes, s, cell) && t < |w.nodes| && w.rank[t] + 1 < w.rank[s]
    requires Wired(w.nodes, hs, s)
    ensures Wired(Stores.On(Cleared(w, t, hs), s, t, reducer).nodes, hs[t := |w.nodes|], s)
  {
    var c := Cleared(w, t, hs);
    ClearedWired(w, t, hs, s);
    StoreKept(w, c, s, cell);
    OnWired(c, s, t, hs - {t}, reducer);
    assert (hs - {t})[t := |w.nodes|] == hs[t := |w.nodes|];
  }

  /** `.map` keeps the source's edge nodes wired. */
  lemma MapWired(w: World, s: NodeRef, ref: StateRef, fn: (Value, Value) -> Value, initial: Value,
                 hs: map<NodeRef, NodeRef>)
    requires Wf(w) && IsStore(w, s) && ref.id == |w.cells| && Wired(w.nodes, hs, s)
    ensures Wired(Stores.Map(w, s, ref, fn, initial).nodes, hs, s)
  {
    var r := Stores.Map(w, s, ref, fn, initial);
    MapEdges(w, s, ref, fn, initial);
    WiredGrow(w, r, s, [|w.nodes| + 1], hs, s);
  }

  /** A store's cell is the runtime's cell at the cell's own index. */
  lemma CellOwned(s: Store)
    requires s.Bound()
    ensures s.cell.id < |s.rt.refs| && s.rt.refs[s.cell.id] == s.cell
  {
    assert NodeOwned(s.rt.refs, s.rt.nodes[s.node]);
  }

  /** A store: a node of the runtime that writes one cell, and the edge nodes
      its `.on` calls made, by trigger. */
  class Store {
    const rt: Runtime
    const node: NodeRef
    const cell: StateRef
    var handlers: map<NodeRef, NodeRef>

    /** The store is a store node of a valid runtime. */
    ghost predicate Bound()
      reads this, rt`nodes, rt`rank, rt`refs
    {
      rt.Valid() && StoreAt(rt.nodes, node, cell)
    }

    /** ... and its edge nodes are wired to their triggers. */
    ghost predicate Valid()
      reads this, rt`nodes, rt`rank, rt`refs
    {
      Bound() && Wired(rt.nodes, handlers, node)
    }

    constructor (rt: Runtime, node: NodeRef, cell: StateRef)
      requires rt.Valid() && StoreAt(rt.nodes, node, cell)
      ensures this.rt == rt && this.node == node && this.cell == cell && handlers == map[] && Valid()
      ensures rt.State() == old(rt.State())
    {
      this.rt := rt;
      this.node := node;
      this.cell := cell;
      handlers := map[];
    }

    /** `store.getState()`: the contents of the store's cell. */
    method GetState() returns (v: Value)
      requires Bound()
      ensures IsStore(rt.State(), node) && v == Stores.GetState(rt.State(), node)
    {
      assert NodeOwned(rt.refs, rt.nodes[node]);
      v := cell.current;
    }

    /** `store.on(trigger, reducer)`: an earlier handler for the same trigger
        is dropped first; the result is the store itself. */
    method On(trigger: NodeRef, reducer: (Value, Value) -> Value) returns (s: Store)
      requires Valid() && trigger < |rt.nodes| && rt.rank[trigger] + 1 < rt.rank[node]
      modifies this, rt`nodes, rt`rank
      ensures s == this && Valid()
      ensures handlers == old(handlers)[trigger := old(|rt.nodes|)]
      ensures rt.State() == Stores.On(Cleared(old(rt.State()), trigger, old(handlers)), node, trigger, reducer)
    {
      ghost var w := rt.State();
      HandleWired(w, node, cell, trigger, handlers, reducer);
      var o := rt.Handle(node, cell, trigger, handlers, reducer);
      handlers := handlers[trigger := o];
      s := this;
    }

    /** `store.off(trigger)`: the trigger no longer reaches the store through
        the handler `.on` gave it; the result is the store itself. */
    method Off(trigger: NodeRef) returns (s: Store)
      requires Valid() && trigger < |rt.nodes|
      modifies this, rt`nodes
      ensures s == this && Valid()
      ensures handlers == old(handlers) - {trigger}
      ensures rt.State() == Cleared(old(rt.State()), trigger, old(handlers))
      ensures trigger in old(handlers) ==> Orphan(rt.State(), old(handlers)[trigger])
    {
      ghost var w := rt.State();
      rt.Release(node, cell, trigger, handlers);
      ClearedWired(w, trigger, handlers, node);
      handlers := handlers - {trigger};
      s := this;
    }

    /** `store.map(fn, initial)`: a new store derived from this one. */
    method Map(fn: (Value, Value) -> Value, initial: Value) returns (d: Store)
      requires Valid()
      modifies rt`nodes, rt`rank, rt`refs
      ensures Valid() && fresh(d) && fresh(d.cell) && d.rt == rt && d.node == old(|rt.nodes|) && d.handlers == map[]
      ensures d.Valid()
      ensures d.cell.id == old(|rt.refs|)
      ensures rt.State() == Stores.Map(old(rt.State()), node, d.cell, fn, initial)
    {
      var n := |rt.nodes|;
      var ref := Derive(fn, initial);
      d := new Store(rt, n, ref);
    }

    /** The graph work of `.map`, keeping this store's edge nodes wired. */
    method Derive(fn: (Value, Value) -> Value, initial: Value) returns (ref: StateRef)
      requires Valid()
      modifies rt`nodes, rt`rank, rt`refs
      ensures Valid() && fresh(ref) && ref.id == old(|rt.refs|) && StoreAt(rt.nodes, old(|rt.nodes|), ref)
      ensures rt.State() == Stores.Map(old(rt.State()), node, ref, fn, initial)
    {
      ghost var w := rt.State();
      ref := rt.AddMap(node, cell, fn, initial);
      MapWired(w, node, ref, fn, initial, handlers);
    }

    /** `store.watch(fn)`: returns what unsubscribes. */
    method Watch() returns (unsub: Subscription)
      requires Valid()
      modifies rt`nodes, rt`rank, rt`calls
      ensures Valid() && unsub == Subscription(node, old(|rt.nodes|))
      ensures rt.State() == Stores.Watch(old(rt.State()), node)
    {
      ghost var w := rt.State();
      unsub := rt.AddWatch(node);
      StoreKept(w, rt.State(), node, cell);
      WiredGrow(w, rt.State(), node, [unsub.node], handlers, node);
    }

    /** `store.watch(unit, fn)`: returns what unsubscribes. */
    method WatchUnit(u: NodeRef) returns (unsub: Subscription)
      requires Valid() && u < |rt.nodes|
      modifies rt`nodes, rt`rank
      ensures Valid() && unsub == Subscription(u, old(|rt.nodes|))
      ensures rt.State() == Stores.WatchUnit(old(rt.State()), node, u)
    {
      ghost var w := rt.State();
      unsub := rt.AddUnitWatch(node, u);
      StoreKept(w, rt.State(), node, cell);
      WiredGrow(w, rt.State(), u, [unsub.node], handlers, node);
    }
  }
}
