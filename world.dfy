/** Stores, events and effects as graph construction over an arena, with the
    state of every cell and the record of watcher calls beside it. Each
    operation is a function from the old world to the new one; the classes in
    the engine module carry them out in place. */
module Stores {
  import opened Values
  import opened Graphs
  import opened Executor
  import opened Kernel

  /** The scope key under which a node closes over its store's cell. */
  const StateKey: string := "state"

  datatype World = World(nodes: seq<Graph>, rank: seq<nat>, cells: seq<Value>, log: seq<Call>)

  datatype Result<T> = Ok(value: T) | Failure(error: string)

  const Empty: World := World([], [], [], [])

  predicate Wf(w: World)
  {
    WfGraph(w.nodes, w.rank, |w.cells|)
  }

  /** Node `s` is a store: its sequence is a single `update` of the cell its
      scope holds under `StateKey`. */
  predicate IsStore(w: World, s: NodeRef)
  {
    s < |w.nodes| && StateKey in w.nodes[s].scope &&
    |w.nodes[s].cmds| == 1 && w.nodes[s].cmds[0].Update? &&
    w.nodes[s].cmds[0].store == w.nodes[s].scope[StateKey]
  }

  function StateOf(w: World, s: NodeRef): StateRef
    requires IsStore(w, s)
  {
    w.nodes[s].scope[StateKey]
  }

  /** `getState()`. */
  function GetState(w: World, s: NodeRef): Value
    requires Wf(w) && IsStore(w, s)
  {
    assert ScopeBelow(w.nodes[s].scope, |w.cells|);
    w.cells[StateOf(w, s).id]
  }

  /** `p` is the only node with `n` among its children. */
  predicate OnlyParent(w: World, p: NodeRef, n: NodeRef)
  {
    forall i :: 0 <= i < |w.nodes| && n in w.nodes[i].next ==> i == p
  }

  /** No node has `n` among its children. */
  predicate Orphan(w: World, n: NodeRef)
  {
    forall i :: 0 <= i < |w.nodes| ==> n !in w.nodes[i].next
  }

  /** `r` grew out of `w`: no node lost its sequence, scope or rank, no cell
      disappeared and no call was forgotten. */
  ghost predicate Extends(w: World, r: World)
  {
    |w.nodes| <= |r.nodes| && w.rank <= r.rank && |w.cells| <= |r.cells| && w.log <= r.log &&
    forall i :: 0 <= i < |w.nodes| ==> r.nodes[i].cmds == w.nodes[i].cmds && r.nodes[i].scope == w.nodes[i].scope
  }

  lemma ExtendsTrans(w1: World, w2: World, w3: World)
    requires Extends(w1, w2) && Extends(w2, w3)
    ensures Extends(w1, w3)
  {
  }

  /** Every existing node but `p` keeps its children. */
  ghost predicate OthersKeepEdges(w: World, r: World, p: NodeRef)
  {
    forall i :: 0 <= i < |w.nodes| && i < |r.nodes| && i != p ==> r.nodes[i].next == w.nodes[i].next
  }

  /** A node added at the end, then an edge out of `p`: only `p` changed. */
  lemma OthersKeepEdgesTrans(w1: World, w2: World, w3: World, p: NodeRef)
    requires OthersKeepEdges(w1, w2, |w1.nodes|) && OthersKeepEdges(w2, w3, p) && |w1.nodes| <= |w2.nodes|
    ensures OthersKeepEdges(w1, w3, p)
  {
  }

  /** An edge of a well-formed world goes to an existing node of higher rank. */
  lemma EdgeRank(w: World, i: NodeRef, j: NodeRef)
    requires Wf(w) && i < |w.nodes| && j in w.nodes[i].next
    ensures j < |w.nodes| && w.rank[i] < w.rank[j]
  {
  }

  /** A node of a well-formed world names existing cells only. */
  lemma NodeRefsBelow(w: World, i: NodeRef)
    requires Wf(w) && i < |w.nodes|
    ensures RefsBelow(w.nodes[i].cmds, w.nodes[i].scope, |w.cells|)
  {
  }

  function AddNode(w: World, from: seq<NodeRef>, next: seq<NodeRef>, cmds: seq<Cmd>,
                   scope: map<string, StateRef>, rk: nat, meta: map<string, string>): (r: World)
    requires Wf(w) && RefsBelow(cmds, scope, |w.cells|)
    requires forall j :: j in next ==> j < |w.nodes| && rk < w.rank[j]
    ensures Wf(r) && Extends(w, r) && OthersKeepEdges(w, r, |w.nodes|) && Orphan(r, |w.nodes|)
    ensures |r.nodes| == |w.nodes| + 1 && r.nodes[|w.nodes|] == Graph(from, next, cmds, scope, meta)
    ensures forall i :: 0 <= i < |w.nodes| ==> r.nodes[i] == w.nodes[i]
    ensures r.rank == w.rank + [rk] && r.cells == w.cells && r.log == w.log
  {
    var r := w.(nodes := w.nodes + [Graph(from, next, cmds, scope, meta)], rank := w.rank + [rk]);
    AddNodeWf(w, r, rk);
    r
  }

  lemma AddNodeWf(w: World, r: World, rk: nat)
    requires Wf(w) && |r.nodes| == |w.nodes| + 1 && r.nodes[..|w.nodes|] == w.nodes
    requires r.rank == w.rank + [rk] && r.cells == w.cells
    requires var g := r.nodes[|w.nodes|];
      RefsBelow(g.cmds, g.scope, |w.cells|) && forall j :: j in g.next ==> j < |w.nodes| && rk < w.rank[j]
    ensures Wf(r) && Orphan(r, |w.nodes|)
  {
    forall i | 0 <= i < |r.nodes|
      ensures RefsBelow(r.nodes[i].cmds, r.nodes[i].scope, |r.cells|)
      ensures forall j :: j in r.nodes[i].next ==> j < |r.nodes| && r.rank[i] < r.rank[j]
      ensures i < |w.nodes| ==> |w.nodes| !in r.nodes[i].next
    {
      if i < |w.nodes| {
        assert r.nodes[i] == r.nodes[..|w.nodes|][i] == w.nodes[i];
        forall j | j in r.nodes[i].next
          ensures j < |w.nodes| && r.rank[i] < r.rank[j]
        {
          assert j in w.nodes[i].next;
          EdgeRank(w, i, j);
          assert r.rank[i] == w.rank[i] && r.rank[j] == w.rank[j];
        }
      }
    }
  }

  function Link(w: World, p: NodeRef, c: NodeRef): (r: World)
    requires Wf(w) && p < |w.nodes| && c < |w.nodes| && w.rank[p] < w.rank[c]
    ensures Wf(r) && Extends(w, r) && OthersKeepEdges(w, r, p)
    ensures |r.nodes| == |w.nodes| && r.nodes[p].next == w.nodes[p].next + [c]
    ensures forall i, j :: 0 <= i < |r.nodes| ==> (j in r.nodes[i].next <==> j in w.nodes[i].next || (i == p && j == c))
    ensures r.rank == w.rank && r.cells == w.cells && r.log == w.log
  {
    var r := w.(nodes := w.nodes[p := w.nodes[p].(next := w.nodes[p].next + [c])]);
    LinkWf(w, r, p, c);
    r
  }

  lemma LinkWf(w: World, r: World, p: NodeRef, c: NodeRef)
    requires Wf(w) && p < |w.nodes| && c < |w.nodes| && w.rank[p] < w.rank[c]
    requires r == w.(nodes := w.nodes[p := w.nodes[p].(next := w.nodes[p].next + [c])])
    ensures Wf(r)
  {
    forall j | j in w.nodes[p].next + [c]
      ensures j < |w.nodes| && w.rank[p] < w.rank[j]
    {
      if j != c {
        EdgeRank(w, p, j);
      }
    }
    RelinkWf(w, p, w.nodes[p].next + [c]);
  }

  lemma PruneWf(w: World, p: NodeRef, c: NodeRef)
    requires Wf(w) && p < |w.nodes|
    ensures Wf(w.(nodes := w.nodes[p := w.nodes[p].(next := Without(w.nodes[p].next, c))]))
  {
    forall j | j in Without(w.nodes[p].next, c)
      ensures j < |w.nodes| && w.rank[p] < w.rank[j]
    {
      EdgeRank(w, p, j);
    }
    RelinkWf(w, p, Without(w.nodes[p].next, c));
  }

  /** Giving node `p` new children keeps the world well formed as long as
      each of them exists and lies at a higher rank. */
  lemma RelinkWf(w: World, p: NodeRef, next: seq<NodeRef>)
    requires Wf(w) && p < |w.nodes|
    requires forall j :: j in next ==> j < |w.nodes| && w.rank[p] < w.rank[j]
    ensures Wf(w.(nodes := w.nodes[p := w.nodes[p].(next := next)]))
  {
    var r := w.(nodes := w.nodes[p := w.nodes[p].(next := next)]);
    forall i | 0 <= i < |r.nodes|
      ensures RefsBelow(r.nodes[i].cmds, r.nodes[i].scope, |r.cells|)
      ensures forall j :: j in r.nodes[i].next ==> j < |r.nodes| && r.rank[i] < r.rank[j]
    {
      NodeRefsBelow(w, i);
      if i != p {
        assert r.nodes[i] == w.nodes[i];
        forall j | j in r.nodes[i].next
          ensures j < |r.nodes| && r.rank[i] < r.rank[j]
        {
          EdgeRank(w, i, j);
        }
      } else {
        assert r.nodes[i].cmds == w.nodes[i].cmds && r.nodes[i].scope == w.nodes[i].scope;
        assert r.nodes[p].next == next;
      }
    }
  }

  /** `s` with every occurrence of `x` taken out, the rest in order. */
  function Without(s: seq<NodeRef>, x: NodeRef): (r: seq<NodeRef>)
    ensures forall y :: y in r <==> y in s && y != x
    ensures |r| <= |s|
    decreases |s|
  {
    if s == [] then []
    else if s[0] == x then Without(s[1..], x)
    else [s[0]] + Without(s[1..], x)
  }

  function Unlink(w: World, p: NodeRef, c: NodeRef): (r: World)
    requires Wf(w) && p < |w.nodes|
    ensures Wf(r) && Extends(w, r) && OthersKeepEdges(w, r, p)
    ensures |r.nodes| == |w.nodes| && r.nodes[p].next == Without(w.nodes[p].next, c)
    ensures c !in r.nodes[p].next
    ensures r.rank == w.rank && r.cells == w.cells && r.log == w.log
  {
    PruneWf(w, p, c);
    w.(nodes := w.nodes[p := w.nodes[p].(next := Without(w.nodes[p].next, c))])
  }

  /** The compute of an `.on` edge: the reducer gets the store's state and the
      trigger's payload. */
  function ReduceFn(reducer: (Value, Value) -> Value): (Value, Scope) -> Value
  {
    (payload, sc) => reducer(Lookup(sc, StateKey), payload)
  }

  /** The compute of a `.map` edge: the mapper gets the source's new value and
      the derived store's own state. */
  function MapFn(fn: (Value, Value) -> Value): (Value, Scope) -> Value
  {
    (v, sc) => fn(v, Lookup(sc, StateKey))
  }

  /** The run of `watch(fn)`: the callback gets the store's new value. */
  function Itself(v: Value, sc: Scope): Value
  {
    v
  }

  /** The run of `watch(unit, fn)`: the callback gets the store's state and the
      unit's payload. */
  function WithState(payload: Value, sc: Scope): Value
  {
    Arr([Lookup(sc, StateKey), payload])
  }

  /** `createEvent(name)` / `createEffect(name)`: a node that only marks the
      activation; its rank is 0, below everything. */
  function CreateUnit(w: World, kind: Kind, name: string): (r: World)
    requires Wf(w)
    ensures Wf(r) && Extends(w, r) && OthersKeepEdges(w, r, |w.nodes|)
    ensures |r.nodes| == |w.nodes| + 1 && r.rank == w.rank + [0]
    ensures r.nodes[|w.nodes|].cmds == [Emit(|w.nodes|, name)]
    ensures r.nodes[|w.nodes|].next == [] && Orphan(r, |w.nodes|)
    ensures r.cells == w.cells && r.log == w.log
  {
    AddNode(w, [], [], [Emit(|w.nodes|, name)], map[], 0, map["unit" := KindName(kind), "name" := name])
  }

  /** A store node with a fresh cell holding `init`, at rank `rk`. */
  function AddStore(w: World, ref: StateRef, init: Value, rk: nat): (r: World)
    requires Wf(w) && ref.id == |w.cells|
    ensures Wf(r) && Extends(w, r) && OthersKeepEdges(w, r, |w.nodes|)
    ensures |r.nodes| == |w.nodes| + 1
    ensures IsStore(r, |w.nodes|) && StateOf(r, |w.nodes|) == ref && GetState(r, |w.nodes|) == init
    ensures r.rank == w.rank + [rk]
    ensures r.nodes[|w.nodes|].next == [] && Orphan(r, |w.nodes|)
    ensures r.cells == w.cells + [init] && r.log == w.log
  {
    AddNode(w.(cells := w.cells + [init]), [], [], [Update(|w.nodes|, ref)], map[StateKey := ref], rk,
            map["unit" := KindName(Store)])
  }

  /** `createStore(init)`: refused when `init` is undefined; otherwise a root
      store (rank 2) holding `init`. */
  function CreateStore(w: World, ref: StateRef, init: Value): (r: Result<World>)
    requires Wf(w) && ref.id == |w.cells|
    ensures r.Failure? <==> init == Undef
    ensures r.Ok? ==>
      Wf(r.value) && Extends(w, r.value) && OthersKeepEdges(w, r.value, |w.nodes|) &&
      |r.value.nodes| == |w.nodes| + 1 && r.value.rank[|w.nodes|] == 2 &&
      IsStore(r.value, |w.nodes|) && StateOf(r.value, |w.nodes|) == ref &&
      GetState(r.value, |w.nodes|) == init && r.value.nodes[|w.nodes|].next == [] &&
      r.value.cells == w.cells + [init] && r.value.log == w.log
  {
    if init == Undef then Failure("store: current state can't be undefined")
    else Ok(AddStore(w, ref, init, 2))
  }

  /** `store.on(trigger, reducer)`: a new node, child of the trigger, whose
      compute applies the reducer to the store's state and the payload and
      whose only child is the store. (`.on` first drops an earlier handler
      for the same trigger; the engine's `Store.On` does that with `Off`.) */
  function On(w: World, s: NodeRef, t: NodeRef, reducer: (Value, Value) -> Value): (r: World)
    requires Wf(w) && IsStore(w, s) && t < |w.nodes| && w.rank[t] + 1 < w.rank[s]
    ensures Wf(r) && Extends(w, r) && OthersKeepEdges(w, r, t)
    ensures |r.nodes| == |w.nodes| + 1 && OnlyParent(r, t, |w.nodes|)
    ensures r.rank == w.rank + [w.rank[t] + 1]
    ensures r.nodes[t].next == w.nodes[t].next + [|w.nodes|]
    ensures r.nodes[|w.nodes|].next == [s] && r.nodes[|w.nodes|].scope == map[StateKey := StateOf(w, s)]
    ensures r.nodes[|w.nodes|].cmds == [Compute(|w.nodes|, ReduceFn(reducer))]
    ensures r.cells == w.cells && r.log == w.log
  {
    var o := |w.nodes|;
    var ref := StateOf(w, s);
    assert ScopeBelow(w.nodes[s].scope, |w.cells|);
    var w1 := AddNode(w, [t], [s], [Compute(o, ReduceFn(reducer))], map[StateKey := ref], w.rank[t] + 1,
                      map["op" := "on"]);
    Link(w1, t, o)
  }

  /** `.off(trigger)`, once the edge node `o` the store registered for the
      trigger is known: the trigger forgets that node. */
  function Off(w: World, t: NodeRef, o: NodeRef): (r: World)
    requires Wf(w) && t < |w.nodes|
    ensures Wf(r) && Extends(w, r) && OthersKeepEdges(w, r, t)
    ensures |r.nodes| == |w.nodes| && o !in r.nodes[t].next
    ensures forall j :: j in r.nodes[t].next <==> j in w.nodes[t].next && j != o
    ensures w.nodes[t].next == [o] ==> r.nodes[t].next == []
    ensures OnlyParent(w, t, o) ==> Orphan(r, o)
    ensures r.rank == w.rank && r.cells == w.cells && r.log == w.log
  {
    Unlink(w, t, o)
  }

  /** `store.map(fn, initial)`: a derived store, at index |w.nodes|, seeded at
      once from the source's current state (`fn` is not called while the source
      is undefined, and a seed of no value leaves the derived store undefined),
      and an edge node, at index |w.nodes| + 1, that recomputes it on every
      change of the source from the new value and the derived store's own
      previous state. */
  function Map(w: World, src: NodeRef, ref: StateRef, fn: (Value, Value) -> Value, initial: Value): (r: World)
    requires Wf(w) && IsStore(w, src) && ref.id == |w.cells|
    ensures Wf(r) && |r.nodes| == |w.nodes| + 2 && IsStore(r, |w.nodes|) && StateOf(r, |w.nodes|) == ref
    ensures GetState(w, src) == Undef ==> GetState(r, |w.nodes|) == Undef
    ensures GetState(w, src) != Undef ==> GetState(r, |w.nodes|) == fn(GetState(w, src), initial)
    ensures r.cells == w.cells + [GetState(r, |w.nodes|)] && r.log == w.log
  {
    var d := |w.nodes|;
    var cur := GetState(w, src);
    var seed := if cur == Undef then Undef else fn(cur, initial);
    var w1 := AddStore(w, ref, seed, w.rank[src] + 2);
    MapEdge(w1, src, d, ref, fn)
  }

  /** `.map` only adds: every node keeps its sequence and scope. */
  lemma MapExtends(w: World, src: NodeRef, ref: StateRef, fn: (Value, Value) -> Value, initial: Value)
    requires Wf(w) && IsStore(w, src) && ref.id == |w.cells|
    ensures Extends(w, Map(w, src, ref, fn, initial))
  {
    var cur := GetState(w, src);
    ExtendsTrans(w, AddStore(w, ref, if cur == Undef then Undef else fn(cur, initial), w.rank[src] + 2),
                 Map(w, src, ref, fn, initial));
  }

  /** `.map` is a store node seeded from the source, then its edge node. */
  lemma MapSteps(w: World, src: NodeRef, ref: StateRef, fn: (Value, Value) -> Value, initial: Value, w1: World)
    requires Wf(w) && IsStore(w, src) && ref.id == |w.cells|
    requires w1 == AddStore(w, ref, if GetState(w, src) == Undef then Undef else fn(GetState(w, src), initial),
                            w.rank[src] + 2)
    ensures Wf(w1) && src < |w.nodes| && |w1.nodes| == |w.nodes| + 1 && Orphan(w1, |w.nodes|)
    ensures w1.nodes[|w.nodes|].next == [] && w1.rank[|w.nodes|] == w1.rank[src] + 2
    ensures IsStore(w1, |w.nodes|) && StateOf(w1, |w.nodes|) == ref
    ensures Map(w, src, ref, fn, initial) == MapEdge(w1, src, |w.nodes|, ref, fn)
  {
  }

  /** The edges `.map` adds: the source gains the edge node as its last
      child, the edge node's only child is the derived store, and each is the
      only parent of its child; every other node keeps its children. */
  lemma MapEdges(w: World, src: NodeRef, ref: StateRef, fn: (Value, Value) -> Value, initial: Value)
    requires Wf(w) && IsStore(w, src) && ref.id == |w.cells|
    ensures var r := Map(w, src, ref, fn, initial); var d := |w.nodes|;
      OthersKeepEdges(w, r, src) &&
      r.nodes[src].next == w.nodes[src].next + [d + 1] &&
      r.nodes[d].next == [] && r.nodes[d + 1].next == [d] &&
      r.nodes[d + 1].cmds == [Compute(d + 1, MapFn(fn))] && r.nodes[d + 1].scope == map[StateKey := ref] &&
      OnlyParent(r, src, d + 1) && OnlyParent(r, d + 1, d)
  {
    var cur := GetState(w, src);
    var seed := if cur == Undef then Undef else fn(cur, initial);
    var w1 := AddStore(w, ref, seed, w.rank[src] + 2);
    OthersKeepEdgesTrans(w, w1, Map(w, src, ref, fn, initial), src);
  }

  /** The edge node of `.map`, at the end of the arena: child of the source
      `src`, parent of the derived store `d` just before it. */
  function MapEdge(w: World, src: NodeRef, d: NodeRef, ref: StateRef, fn: (Value, Value) -> Value): (r: World)
    requires Wf(w) && src < d && |w.nodes| == d + 1 && Orphan(w, d) && w.nodes[d].next == []
    requires w.rank[d] == w.rank[src] + 2 && IsStore(w, d) && StateOf(w, d) == ref
    ensures Wf(r) && Extends(w, r) && OthersKeepEdges(w, r, src)
    ensures IsStore(r, d) && StateOf(r, d) == ref
    ensures |r.nodes| == d + 2 && r.rank == w.rank + [w.rank[src] + 1] && r.cells == w.cells && r.log == w.log
    ensures r.nodes[src].next == w.nodes[src].next + [d + 1]
    ensures r.nodes[d].next == [] && r.nodes[d + 1].next == [d]
    ensures r.nodes[d + 1].cmds == [Compute(d + 1, MapFn(fn))] && r.nodes[d + 1].scope == map[StateKey := ref]
    ensures OnlyParent(r, src, d + 1) && OnlyParent(r, d + 1, d)
  {
    var w2 := AddNode(w, [src], [d], [Compute(d + 1, MapFn(fn))], map[StateKey := ref], w.rank[src] + 1,
                      map["op" := "map"]);
    var r := Link(w2, src, d + 1);
    MapParents(w, w2, r, src, d);
    r
  }

  lemma MapParents(w1: World, w2: World, r: World, src: NodeRef, d: NodeRef)
    requires |w1.nodes| == d + 1 && |w2.nodes| == d + 2 && |r.nodes| == d + 2 && src < d
    requires Orphan(w1, d) && Orphan(w2, d + 1) && w2.nodes[d + 1].next == [d]
    requires forall i :: 0 <= i <= d ==> w2.nodes[i] == w1.nodes[i]
    requires forall i, j :: 0 <= i < |r.nodes| ==> (j in r.nodes[i].next <==> j in w2.nodes[i].next || (i == src && j == d + 1))
    ensures OnlyParent(r, src, d + 1) && OnlyParent(r, d + 1, d)
  {
  }

  /** `store.watch(fn)`: the callback is called at once with the current state,
      and a new child of the store calls it on every later change. */
  function Watch(w: World, s: NodeRef): (r: World)
    requires Wf(w) && IsStore(w, s)
    ensures Wf(r) && Extends(w, r) && OthersKeepEdges(w, r, s)
    ensures |r.nodes| == |w.nodes| + 1 && OnlyParent(r, s, |w.nodes|)
    ensures r.rank == w.rank + [w.rank[s] + 1]
    ensures r.nodes[s].next == w.nodes[s].next + [|w.nodes|]
    ensures r.nodes[|w.nodes|].cmds == [Run(|w.nodes|, Itself)] && r.nodes[|w.nodes|].next == []
    ensures r.cells == w.cells && r.log == w.log + [Call(|w.nodes|, GetState(w, s))]
  {
    var n := |w.nodes|;
    var w1 := AddNode(w, [s], [], [Run(n, Itself)], map[], w.rank[s] + 1, map["op" := "watch"]);
    var w2 := Link(w1, s, n);
    w2.(log := w2.log + [Call(n, Itself(GetState(w, s), map[]))])
  }

  /** `store.watch(unit, fn)`: a new child of the unit, not of the store, that
      calls the callback with the store's state and the unit's payload. Nothing
      is called at subscription. */
  function WatchUnit(w: World, s: NodeRef, u: NodeRef): (r: World)
    requires Wf(w) && IsStore(w, s) && u < |w.nodes|
    ensures Wf(r) && Extends(w, r) && OthersKeepEdges(w, r, u)
    ensures |r.nodes| == |w.nodes| + 1 && OnlyParent(r, u, |w.nodes|)
    ensures r.rank == w.rank + [w.rank[u] + 1]
    ensures r.nodes[u].next == w.nodes[u].next + [|w.nodes|]
    ensures r.nodes[|w.nodes|].cmds == [Run(|w.nodes|, WithState)] && r.nodes[|w.nodes|].next == []
    ensures r.nodes[|w.nodes|].scope == map[StateKey := StateOf(w, s)]
    ensures r.cells == w.cells && r.log == w.log
  {
    var n := |w.nodes|;
    assert ScopeBelow(w.nodes[s].scope, |w.cells|);
    var w1 := AddNode(w, [u], [], [Run(n, WithState)], map[StateKey := StateOf(w, s)], w.rank[u] + 1,
                      map["op" := "watch"]);
    Link(w1, u, n)
  }

  /** Calling the function a watch returned: the watcher node `n` is taken out
      of its parent's children. Nothing else changes. */
  function Unsubscribe(w: World, p: NodeRef, n: NodeRef): (r: World)
    requires Wf(w) && p < |w.nodes|
    ensures Wf(r) && Extends(w, r) && OthersKeepEdges(w, r, p)
    ensures |r.nodes| == |w.nodes| && n !in r.nodes[p].next
    ensures forall j :: j in r.nodes[p].next <==> j in w.nodes[p].next && j != n
    ensures w.nodes[p].next == [n] ==> r.nodes[p].next == []
    ensures OnlyParent(w, p, n) ==> Orphan(r, n)
    ensures r.rank == w.rank && r.cells == w.cells && r.log == w.log
  {
    Off(w, p, n)
  }

  /** Calling an event or an effect with a payload: one activation from its
      node. The graph stays as it is; cells change and calls are recorded. */
  function Fire(w: World, u: NodeRef, payload: Value): (r: World)
    requires Wf(w) && u < |w.nodes|
    ensures Wf(r) && r.nodes == w.nodes && r.rank == w.rank
    ensures |r.cells| == |w.cells| && w.log <= r.log
  {
    var h := Activate(w.nodes, w.rank, u, payload, Heap(w.cells, w.log));
    w.(cells := h.cells, log := h.log)
  }

  /** An activation from outside a closed set `S` of nodes never runs any of
      them: it records no call of theirs and leaves every cell only they write
      as it was. */
  lemma FireAvoids(w: World, u: NodeRef, payload: Value, S: set<NodeRef>)
    requires Wf(w) && u < |w.nodes| && Closed(w.nodes, S) && u !in S
    ensures var r := Fire(w, u, payload);
      (forall k :: |w.log| <= k < |r.log| ==> r.log[k].node !in S) &&
      (forall id :: 0 <= id < |w.cells| && WrittenOnlyIn(w.nodes, S, id) ==> r.cells[id] == w.cells[id])
  {
    DrainAvoids(w.nodes, w.rank, [Visit(u, payload)], Heap(w.cells, w.log), w.rank[u], S);
  }

  /** After unsubscribing, the watcher is never called again, whatever is
      fired: its node has no parent left. */
  lemma UnsubscribeSilences(w: World, p: NodeRef, n: NodeRef, u: NodeRef, payload: Value)
    requires Wf(w) && p < |w.nodes| && u < |w.nodes| && u != n && OnlyParent(w, p, n)
    ensures var r := Fire(Unsubscribe(w, p, n), u, payload);
      forall k :: |w.log| <= k < |r.log| ==> r.log[k].node != n
  {
    var w1 := Unsubscribe(w, p, n);
    assert Closed(w1.nodes, {n});
    FireAvoids(w1, u, payload, {n});
  }

  /** After `.off(t)` cuts the edge node `o` that only `t` fed, firing `t`
      no longer reaches any node of a set `S` whose members other than `o`
      are fed only from inside `S`: the store behind `o` and the stores
      derived from it keep their state, and none of their watchers is called. */
  lemma OffDetaches(w: World, t: NodeRef, o: NodeRef, S: set<NodeRef>, payload: Value)
    requires Wf(w) && t < |w.nodes| && t !in S && OnlyParent(w, t, o)
    requires forall i, j :: 0 <= i < |w.nodes| && j in w.nodes[i].next && j in S && j != o ==> i in S
    ensures var r := Fire(Off(w, t, o), t, payload);
      (forall k :: |w.log| <= k < |r.log| ==> r.log[k].node !in S) &&
      (forall id :: 0 <= id < |w.cells| && WrittenOnlyIn(w.nodes, S, id) ==> r.cells[id] == w.cells[id])
  {
    var w1 := Off(w, t, o);
    assert Closed(w1.nodes, S);
    forall id | 0 <= id < |w1.cells| && WrittenOnlyIn(w.nodes, S, id)
      ensures WrittenOnlyIn(w1.nodes, S, id)
    {
      assert forall i :: 0 <= i < |w1.nodes| ==> w1.nodes[i].cmds == w.nodes[i].cmds;
    }
    FireAvoids(w1, t, payload, S);
  }

  /** The store `s` fed by trigger `t` only through its `.on` edge node `o`:
      after `.off(t)`, firing `t` leaves the store's state as it was. */
  lemma OffKeepsStore(w: World, t: NodeRef, o: NodeRef, s: NodeRef, payload: Value)
    requires Wf(w) && IsStore(w, s) && t < |w.nodes| && t != o && t != s
    requires OnlyParent(w, t, o) && OnlyParent(w, o, s) && WrittenOnlyIn(w.nodes, {o, s}, StateOf(w, s).id)
    ensures var r := Fire(Off(w, t, o), t, payload); IsStore(r, s) && GetState(r, s) == GetState(w, s)
  {
    OffDetaches(w, t, o, {o, s}, payload);
  }

  /** A watcher hung on unit `u` (which nothing feeds) is called only when `u`
      itself is fired: firing anything else, the store's own triggers
      included, never calls it. */
  lemma UnitWatcherOnlyOnUnit(w: World, u: NodeRef, n: NodeRef, x: NodeRef, payload: Value)
    requires Wf(w) && x < |w.nodes| && x != u && x != n
    requires Orphan(w, u) && OnlyParent(w, u, n)
    ensures var r := Fire(w, x, payload);
      forall k :: |w.log| <= k < |r.log| ==> r.log[k].node != n
  {
    assert Closed(w.nodes, {u, n});
    FireAvoids(w, x, payload, {u, n});
  }

  /** A store handed the value it already holds stops there: no cell changes,
      no call is recorded and none of its children is visited. Handed a new
      value, it stores it and passes it to every child. */
  lemma StoreVisit(w: World, s: NodeRef, v: Value, h: Heap)
    requires Wf(w) && IsStore(w, s) && |h.cells| == |w.cells|
    ensures var (r, kids) := VisitNode(w.nodes, Visit(s, v), h);
      var id := StateOf(w, s).id;
      id < |h.cells| &&
      (h.cells[id] == v ==> r == h && kids == []) &&
      (h.cells[id] != v ==> r == h.(cells := h.cells[id := v]) && kids == Children(w.nodes[s].next, v))
  {
    var g := w.nodes[s];
    assert ScopeBelow(g.scope, |w.cells|);
    assert g.cmds[1..] == [];
    var o1 := Step(s, g.cmds[0], v, g.scope, h);
    assert Exec(s, g.cmds, v, g.scope, h) == (if o1.Stop? then o1 else Exec(s, g.cmds[1..], o1.value, g.scope, o1.heap));
  }

  /** An event or effect node hands the payload to its children untouched. */
  lemma UnitVisit(w: World, u: NodeRef, v: Value, h: Heap)
    requires Wf(w) && u < |w.nodes| && |h.cells| == |w.cells|
    requires |w.nodes[u].cmds| == 1 && w.nodes[u].cmds[0].Emit?
    ensures VisitNode(w.nodes, Visit(u, v), h) == (h, Children(w.nodes[u].next, v))
  {
    SingleVisit(w.nodes, Visit(u, v), h);
  }

  /** An edge node (`.on`, `.map`) hands on what its compute yields from the
      value and the state of the cell it closes over; a compute of no value
      stops it. */
  lemma EdgeVisit(w: World, e: NodeRef, v: Value, h: Heap, f: (Value, Scope) -> Value, ref: StateRef)
    requires Wf(w) && e < |w.nodes| && |h.cells| == |w.cells|
    requires w.nodes[e].cmds == [Compute(e, f)] && w.nodes[e].scope == map[StateKey := ref]
    ensures ref.id < |h.cells|
    ensures var r := f(v, map[StateKey := h.cells[ref.id]]);
      VisitNode(w.nodes, Visit(e, v), h) == if r == Undef then (h, []) else (h, Children(w.nodes[e].next, r))
  {
    assert ScopeBelow(w.nodes[e].scope, |w.cells|);
    assert w.nodes[e].scope[StateKey] == ref;
    SingleVisit(w.nodes, Visit(e, v), h);
    assert Snapshot(w.nodes[e].scope, h.cells) == map[StateKey := h.cells[ref.id]];
  }

  /** A watcher node records one call of its callback, on the value and the
      scope it closes over, and hands the value on. */
  lemma WatcherVisit(w: World, n: NodeRef, v: Value, h: Heap, f: (Value, Scope) -> Value)
    requires Wf(w) && n < |w.nodes| && |h.cells| == |w.cells|
    requires w.nodes[n].cmds == [Run(n, f)]
    ensures ScopeBelow(w.nodes[n].scope, |h.cells|)
    ensures VisitNode(w.nodes, Visit(n, v), h) ==
      (h.(log := h.log + [Call(n, f(v, Snapshot(w.nodes[n].scope, h.cells)))]), Children(w.nodes[n].next, v))
  {
    SingleVisit(w.nodes, Visit(n, v), h);
  }
}
