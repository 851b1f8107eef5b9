/** The store tests, each stated over the world functions: the graph the test
    builds, what `getState()` returns after each call, and which calls the
    watchers received. Cells are numbered in creation order, and so are nodes. */
module StoreScenarios {
  import opened Values
  import opened Graphs
  import opened Executor
  import opened Kernel
  import opened Stores

  /** `(_, word) => word` */
  function TakePayload(state: Value, payload: Value): Value
  {
    payload
  }

  /** `word => word.length` (undefined for anything but a string) */
  function Length(word: Value, prev: Value): Value
  {
    if word.Str? then Int(|word.s|) else Undef
  }

  /** `(ln, prevLn) => ln + prevLn` (undefined unless both are numbers) */
  function AddPrevious(ln: Value, prevLn: Value): Value
  {
    if ln.Int? && prevLn.Int? then Int(ln.i + prevLn.i) else Undef
  }

  /** `x => x + 1` (undefined unless the state is a number) */
  function Increment(state: Value, payload: Value): Value
  {
    if state.Int? then Int(state.i + 1) else Undef
  }

  /** `(x, state) => `(${x}, ${state})`` */
  function Describe(x: Value, state: Value): Value
  {
    Str("(" + Show(x) + ", " + Show(state) + ")")
  }

  /* ---------- Building the graphs ---------- */

  /** After `event = createEvent()` and `a = createStore(init)`. */
  ghost predicate Chain1(w: World, ra: StateRef, name: string, init: Value)
  {
    Wf(w) && |w.nodes| == 2 && w.rank[0] == 0 && w.rank[1] >= 2 && w.cells == [init] && w.log == [] &&
    w.nodes[0].cmds == [Emit(0, name)] && w.nodes[0].next == [] &&
    IsStore(w, 1) && StateOf(w, 1) == ra && ra.id == 0 && w.nodes[1].next == []
  }

  /** After `a.on(event, reducer)`. */
  ghost predicate Chain2(w: World, ra: StateRef, name: string, init: Value, reducer: (Value, Value) -> Value)
  {
    Wf(w) && |w.nodes| == 3 && w.rank[0] == 0 && w.rank[2] >= 1 && w.cells == [init] && w.log == [] &&
    w.nodes[0].cmds == [Emit(0, name)] && w.nodes[0].next == [2] &&
    IsStore(w, 1) && StateOf(w, 1) == ra && ra.id == 0 && w.nodes[1].next == [] &&
    w.nodes[2].cmds == [Compute(2, ReduceFn(reducer))] && w.nodes[2].scope == map[StateKey := ra] &&
    w.nodes[2].next == [1]
  }

  /** After `b = a.map(f, initial)`. */
  ghost predicate Chain3(w: World, ra: StateRef, rb: StateRef, name: string, init: Value,
                         reducer: (Value, Value) -> Value, f: (Value, Value) -> Value, initial: Value)
  {
    Wf(w) && |w.nodes| == 5 && w.rank[0] == 0 && w.rank[2] >= 1 && w.cells == [init, f(init, initial)] &&
    w.log == [] &&
    w.nodes[0].cmds == [Emit(0, name)] && w.nodes[0].next == [2] &&
    IsStore(w, 1) && StateOf(w, 1) == ra && ra.id == 0 && w.nodes[1].next == [4] &&
    w.nodes[2].cmds == [Compute(2, ReduceFn(reducer))] && w.nodes[2].scope == map[StateKey := ra] &&
    w.nodes[2].next == [1] &&
    IsStore(w, 3) && StateOf(w, 3) == rb && rb.id == 1 && w.nodes[3].next == [] &&
    w.nodes[4].cmds == [Compute(4, MapFn(f))] && w.nodes[4].scope == map[StateKey := rb] &&
    w.nodes[4].next == [3]
  }

  lemma Chain1Holds(ra: StateRef, name: string, init: Value)
    requires ra.id == 0 && init != Undef
    ensures Chain1(CreateStore(CreateUnit(Empty, Event, name), ra, init).value, ra, name, init)
  {
  }

  lemma Chain2Holds(w: World, ra: StateRef, name: string, init: Value, reducer: (Value, Value) -> Value)
    requires Chain1(w, ra, name, init)
    ensures Chain2(On(w, 1, 0, reducer), ra, name, init, reducer)
  {
  }

  lemma Chain3Holds(w: World, ra: StateRef, rb: StateRef, name: string, init: Value,
                    reducer: (Value, Value) -> Value, f: (Value, Value) -> Value, initial: Value)
    requires Chain2(w, ra, name, init, reducer) && rb.id == 1 && init != Undef
    ensures Chain3(Map(w, 1, rb, f, initial), ra, rb, name, init, reducer, f, initial)
  {
    MapExtends(w, 1, rb, f, initial);
    MapEdges(w, 1, rb, f, initial);
    var r := Map(w, 1, rb, f, initial);
    assert GetState(w, 1) == init;
    assert r.cells == [init] + [r.cells[1]];
  }

  /** `event` feeds `a` through node 2, `a` feeds `b` through node 4: the part
      both the word tests and the counter tests build first. */
  ghost predicate Front(w: World, reducer: (Value, Value) -> Value, f: (Value, Value) -> Value)
  {
    Wf(w) && |w.nodes| >= 5 && |w.cells| >= 2 &&
    w.rank[0] == 0 && w.rank[2] >= 1 && w.rank[1] >= 2 && w.rank[4] >= 3 && w.rank[3] >= 4 &&
    |w.nodes[0].cmds| == 1 && w.nodes[0].cmds[0].Emit? &&
    IsStore(w, 1) && StateOf(w, 1).id == 0 && w.nodes[1].next == [4] &&
    w.nodes[2].cmds == [Compute(2, ReduceFn(reducer))] && w.nodes[2].scope == map[StateKey := StateOf(w, 1)] &&
    w.nodes[2].next == [1] &&
    IsStore(w, 3) && StateOf(w, 3).id == 1 &&
    w.nodes[4].cmds == [Compute(4, MapFn(f))] && w.nodes[4].scope == map[StateKey := StateOf(w, 3)] &&
    w.nodes[4].next == [3]
  }

  lemma Chain3IsFront(w: World, ra: StateRef, rb: StateRef, name: string, init: Value,
                      reducer: (Value, Value) -> Value, f: (Value, Value) -> Value, initial: Value)
    requires Chain3(w, ra, rb, name, init, reducer, f, initial)
    ensures Front(w, reducer, f)
  {
    assert 1 in w.nodes[2].next && 4 in w.nodes[1].next && 3 in w.nodes[4].next;
  }

  /** Growing the world, or rewiring a node outside the front, keeps it. */
  lemma FrontKept(w: World, r: World, p: NodeRef, reducer: (Value, Value) -> Value, f: (Value, Value) -> Value)
    requires Front(w, reducer, f) && Wf(r) && Extends(w, r) && OthersKeepEdges(w, r, p)
    requires p != 1 && p != 2 && p != 4
    ensures Front(r, reducer, f)
  {
    assert forall i :: 0 <= i < 5 ==> r.rank[i] == w.rank[i];
  }

  /* ---------- Running the front ---------- */

  /** Firing the event reaches `a` with what the reducer makes of its state
      and the payload. */
  lemma FrontReachesStore(w: World, reducer: (Value, Value) -> Value, f: (Value, Value) -> Value, p: Value)
    requires Front(w, reducer, f) && w.nodes[0].next == [2] && reducer(w.cells[0], p) != Undef
    ensures var h := Drain(w.nodes, w.rank, [Visit(1, reducer(w.cells[0], p))], Heap(w.cells, w.log), 2);
      Fire(w, 0, p) == w.(cells := h.cells, log := h.log)
  {
    var h0 := Heap(w.cells, w.log);
    var a := reducer(w.cells[0], p);
    UnitVisit(w, 0, p, h0);
    assert Children(w.nodes[0].next, p) == [Visit(2, p)];
    DrainPass(w.nodes, w.rank, Visit(0, p), h0, 0, h0, Visit(2, p));
    EdgeVisit(w, 2, p, h0, ReduceFn(reducer), StateOf(w, 1));
    assert ReduceFn(reducer)(p, map[StateKey := w.cells[0]]) == reducer(Lookup(map[StateKey := w.cells[0]], StateKey), p);
    assert Children(w.nodes[2].next, a) == [Visit(1, a)];
    DrainPass(w.nodes, w.rank, Visit(2, p), h0, 1, h0, Visit(1, a));
  }

  /** `a` handed the value it holds stops the activation. */
  lemma FrontStoreSame(w: World, reducer: (Value, Value) -> Value, f: (Value, Value) -> Value, v: Value, h: Heap)
    requires Front(w, reducer, f) && |h.cells| == |w.cells| && h.cells[0] == v
    ensures Drain(w.nodes, w.rank, [Visit(1, v)], h, 2) == h
  {
    StoreVisit(w, 1, v, h);
    DrainStop(w.nodes, w.rank, Visit(1, v), h, 2, h);
  }

  /** `a` handed a new value stores it and hands it to the edge into `b`. */
  lemma FrontStoreChanged(w: World, reducer: (Value, Value) -> Value, f: (Value, Value) -> Value, v: Value, h: Heap)
    requires Front(w, reducer, f) && |h.cells| == |w.cells| && h.cells[0] != v
    ensures Drain(w.nodes, w.rank, [Visit(1, v)], h, 2) ==
      Drain(w.nodes, w.rank, [Visit(4, v)], h.(cells := h.cells[0 := v]), 3)
  {
    StoreVisit(w, 1, v, h);
    assert Children(w.nodes[1].next, v) == [Visit(4, v)];
    DrainPass(w.nodes, w.rank, Visit(1, v), h, 2, h.(cells := h.cells[0 := v]), Visit(4, v));
  }

  /** The edge into `b` hands on what `f` makes of the value and `b`'s state. */
  lemma FrontEdge(w: World, reducer: (Value, Value) -> Value, f: (Value, Value) -> Value, v: Value, h: Heap)
    requires Front(w, reducer, f) && |h.cells| == |w.cells| && f(v, h.cells[1]) != Undef
    ensures Drain(w.nodes, w.rank, [Visit(4, v)], h, 3) == Drain(w.nodes, w.rank, [Visit(3, f(v, h.cells[1]))], h, 4)
  {
    var b := f(v, h.cells[1]);
    EdgeVisit(w, 4, v, h, MapFn(f), StateOf(w, 3));
    assert MapFn(f)(v, map[StateKey := h.cells[1]]) == f(v, Lookup(map[StateKey := h.cells[1]], StateKey));
    assert Children(w.nodes[4].next, b) == [Visit(3, b)];
    DrainPass(w.nodes, w.rank, Visit(4, v), h, 3, h, Visit(3, b));
  }

  /** `b` handed the value it holds stops the activation. */
  lemma FrontTailSame(w: World, reducer: (Value, Value) -> Value, f: (Value, Value) -> Value, v: Value, h: Heap)
    requires Front(w, reducer, f) && |h.cells| == |w.cells| && h.cells[1] == v
    ensures Drain(w.nodes, w.rank, [Visit(3, v)], h, 4) == h
  {
    StoreVisit(w, 3, v, h);
    DrainStop(w.nodes, w.rank, Visit(3, v), h, 4, h);
  }

  /** `b` handed a new value stores it and hands it to its only child `c`. */
  lemma FrontTailChanged(w: World, reducer: (Value, Value) -> Value, f: (Value, Value) -> Value, v: Value, h: Heap, c: NodeRef)
    requires Front(w, reducer, f) && |h.cells| == |w.cells| && h.cells[1] != v && w.nodes[3].next == [c]
    ensures c < |w.nodes| && w.rank[c] >= 5
    ensures Drain(w.nodes, w.rank, [Visit(3, v)], h, 4) ==
      Drain(w.nodes, w.rank, [Visit(c, v)], h.(cells := h.cells[1 := v]), 5)
  {
    StoreVisit(w, 3, v, h);
    assert Children(w.nodes[3].next, v) == [Visit(c, v)];
    DrainPass(w.nodes, w.rank, Visit(3, v), h, 4, h.(cells := h.cells[1 := v]), Visit(c, v));
  }

  /** A `.watch(fn)` node with nothing after it records one call with the
      value it is handed. */
  lemma WatcherStage(w: World, n: NodeRef, gen: nat, v: Value, h: Heap)
    requires Wf(w) && n < |w.nodes| && w.rank[n] >= gen && |h.cells| == |w.cells|
    requires w.nodes[n].cmds == [Run(n, Itself)] && w.nodes[n].next == []
    ensures Drain(w.nodes, w.rank, [Visit(n, v)], h, gen) == h.(log := h.log + [Call(n, v)])
  {
    WatcherVisit(w, n, v, h, Itself);
    DrainStop(w.nodes, w.rank, Visit(n, v), h, gen, h.(log := h.log + [Call(n, v)]));
  }

  /** A `.watch(unit, fn)` node with nothing after it records one call with
      the state of the store it closes over and the value it is handed. */
  lemma UnitWatcherStage(w: World, n: NodeRef, gen: nat, v: Value, h: Heap, ref: StateRef)
    requires Wf(w) && n < |w.nodes| && w.rank[n] >= gen && |h.cells| == |w.cells|
    requires w.nodes[n].cmds == [Run(n, WithState)] && w.nodes[n].scope == map[StateKey := ref] && w.nodes[n].next == []
    ensures ref.id < |h.cells|
    ensures Drain(w.nodes, w.rank, [Visit(n, v)], h, gen) == h.(log := h.log + [Call(n, Arr([h.cells[ref.id], v]))])
  {
    assert ScopeBelow(w.nodes[n].scope, |w.cells|);
    assert w.nodes[n].scope[StateKey] == ref;
    WatcherVisit(w, n, v, h, WithState);
    assert Snapshot(w.nodes[n].scope, h.cells) == map[StateKey := h.cells[ref.id]];
    DrainStop(w.nodes, w.rank, Visit(n, v), h, gen, h.(log := h.log + [Call(n, Arr([h.cells[ref.id], v]))]));
  }

  /** A unit with no children left: firing it changes nothing. */
  lemma FireLeaf(w: World, u: NodeRef, p: Value)
    requires Wf(w) && u < |w.nodes| && |w.nodes[u].cmds| == 1 && w.nodes[u].cmds[0].Emit? && w.nodes[u].next == []
    ensures Fire(w, u, p) == w
  {
    UnitVisit(w, u, p, Heap(w.cells, w.log));
    DrainStop(w.nodes, w.rank, Visit(u, p), Heap(w.cells, w.log), w.rank[u], Heap(w.cells, w.log));
  }

  /* ---------- The word chain of the `.map`, `.watch` and `.off` tests ---------- */

  /** `sum = b.map((ln, prevLn) => ln + prevLn, 0)` on top of the front, with
      `a = createStore('word').on(newWord, (_, word) => word)` and
      `b = a.map(word => word.length)`: store `sum` is node 5 over cell 2, its
      edge node 6. The children of the event (node 0) and of `sum` are left
      open: `.off` and the watchers change them. */
  ghost predicate WordGraph(w: World)
  {
    Front(w, TakePayload, Length) && |w.nodes| >= 7 && |w.cells| == 3 && w.nodes[3].next == [6] &&
    w.rank[6] >= 5 && w.rank[5] >= 6 &&
    IsStore(w, 5) && StateOf(w, 5).id == 2 &&
    w.nodes[6].cmds == [Compute(6, MapFn(AddPrevious))] && w.nodes[6].scope == map[StateKey := StateOf(w, 5)] &&
    w.nodes[6].next == [5]
  }

  /** The word chain as the tests build it. */
  function WordChain(ra: StateRef, rb: StateRef, rs: StateRef): (w: World)
    requires ra.id == 0 && rb.id == 1 && rs.id == 2
    ensures WordGraph(w) && |w.nodes| == 7 && w.nodes[0].next == [2] && w.nodes[5].next == []
    ensures w.cells == [Str("word"), Int(4), Int(4)] && w.log == []
  {
    var w1 := CreateStore(CreateUnit(Empty, Event, "newWord"), ra, Str("word")).value;
    Chain1Holds(ra, "newWord", Str("word"));
    var w2 := On(w1, 1, 0, TakePayload);
    Chain2Holds(w1, ra, "newWord", Str("word"), TakePayload);
    var w3 := Map(w2, 1, rb, Length, Undef);
    Chain3Holds(w2, ra, rb, "newWord", Str("word"), TakePayload, Length, Undef);
    Chain3IsFront(w3, ra, rb, "newWord", Str("word"), TakePayload, Length, Undef);
    SumAdded(w3, rs);
    Map(w3, 3, rs, AddPrevious, Int(0))
  }

  lemma SumAdded(w: World, rs: StateRef)
    requires Front(w, TakePayload, Length) && |w.nodes| == 5 && w.cells == [Str("word"), Int(4)] && w.log == []
    requires w.nodes[0].next == [2] && w.nodes[3].next == [] && rs.id == 2
    ensures var r := Map(w, 3, rs, AddPrevious, Int(0));
      WordGraph(r) && r.nodes[0].next == [2] && r.nodes[5].next == [] &&
      r.cells == [Str("word"), Int(4), Int(4)] && r.log == []
  {
    SumEdges(w, rs);
    SumCells(w, rs);
  }

  lemma SumEdges(w: World, rs: StateRef)
    requires Front(w, TakePayload, Length) && |w.nodes| == 5 && |w.cells| == 2
    requires w.nodes[0].next == [2] && w.nodes[3].next == [] && rs.id == 2
    ensures var r := Map(w, 3, rs, AddPrevious, Int(0));
      Front(r, TakePayload, Length) && r.nodes[0].next == [2] && r.nodes[5].next == [] &&
      r.nodes[3].next == [6] && r.rank[6] >= 5 && r.rank[5] >= 6 &&
      IsStore(r, 5) && StateOf(r, 5) == rs &&
      r.nodes[6].cmds == [Compute(6, MapFn(AddPrevious))] && r.nodes[6].scope == map[StateKey := rs] &&
      r.nodes[6].next == [5]
  {
    MapExtends(w, 3, rs, AddPrevious, Int(0));
    MapEdges(w, 3, rs, AddPrevious, Int(0));
    var r := Map(w, 3, rs, AddPrevious, Int(0));
    FrontKept(w, r, 3, TakePayload, Length);
    assert 6 in r.nodes[3].next && 5 in r.nodes[6].next;
  }

  lemma SumCells(w: World, rs: StateRef)
    requires Front(w, TakePayload, Length) && w.cells == [Str("word"), Int(4)] && w.log == [] && rs.id == 2
    ensures var r := Map(w, 3, rs, AddPrevious, Int(0)); r.cells == [Str("word"), Int(4), Int(4)] && r.log == []
  {
    assert GetState(w, 3) == w.cells[1];
  }

  /** `sum.watch(spy)` as node 7, the only child of `sum`. */
  ghost predicate SumWatched(w: World)
  {
    |w.nodes| >= 8 && w.nodes[5].next == [7] && w.nodes[7].cmds == [Run(7, Itself)] && w.nodes[7].next == []
  }

  /** The word chain with `sum.watch(spy)`: the spy is called at once with 4. */
  function WatchedChain(ra: StateRef, rb: StateRef, rs: StateRef): (w: World)
    requires ra.id == 0 && rb.id == 1 && rs.id == 2
    ensures WordGraph(w) && w.nodes[0].next == [2] && SumWatched(w)
    ensures w.cells == [Str("word"), Int(4), Int(4)] && w.log == [Call(7, Int(4))]
  {
    var w0 := WordChain(ra, rb, rs);
    WatchKeeps(w0);
    Watch(w0, 5)
  }

  lemma WatchKeeps(w: World)
    requires WordGraph(w) && |w.nodes| == 7 && w.nodes[0].next == [2] && w.nodes[5].next == []
    requires w.cells == [Str("word"), Int(4), Int(4)] && w.log == []
    ensures var r := Watch(w, 5);
      WordGraph(r) && r.nodes[0].next == [2] && SumWatched(r) &&
      r.cells == [Str("word"), Int(4), Int(4)] && r.log == [Call(7, Int(4))]
  {
    var r := Watch(w, 5);
    WordGraphKept(w, r, 5);
  }

  /** Growing the world, or rewiring a node outside the chain's inner edges,
      keeps the word chain. */
  lemma WordGraphKept(w: World, r: World, p: NodeRef)
    requires WordGraph(w) && Wf(r) && Extends(w, r) && OthersKeepEdges(w, r, p) && |r.cells| == 3
    requires p == 0 || p == 5 || p >= 7
    ensures WordGraph(r)
  {
    FrontKept(w, r, p, TakePayload, Length);
    assert r.rank[5] == w.rank[5] && r.rank[6] == w.rank[6];
  }

  /** Firing keeps every graph: only the cells and the calls change. */
  lemma FireKeepsWordGraph(w: World, u: NodeRef, p: Value)
    requires WordGraph(w) && u < |w.nodes|
    ensures WordGraph(Fire(w, u, p))
  {
  }

  /** What the test expects once `sum` is handed `v`: it takes the value if
      it is new, and then the spy (when there is one) is called with it. */
  function AfterSum(c: seq<Value>, log: seq<Call>, v: Value, watched: bool): Heap
    requires |c| == 3
  {
    if c[2] == v then Heap(c, log)
    else Heap(c[2 := v], if watched then log + [Call(7, v)] else log)
  }

  /** What the test expects once `b` is handed `v`: it takes the value if it
      is new, and then `sum` is handed `v` plus its own previous value (no
      value when that is not a number). */
  function AfterLength(c: seq<Value>, log: seq<Call>, v: Value, watched: bool): Heap
    requires |c| == 3
  {
    if c[1] == v then Heap(c, log)
    else
      var sum := AddPrevious(v, c[2]);
      if sum == Undef then Heap(c[1 := v], log) else AfterSum(c[1 := v], log, sum, watched)
  }

  /** What the test expects of `newWord(word)`: `a` takes the word if it is
      new, and then `b` is handed the word's length. */
  function AfterWord(c: seq<Value>, log: seq<Call>, word: string, watched: bool): Heap
    requires |c| == 3
  {
    if c[0] == Str(word) then Heap(c, log) else AfterLength(c[0 := Str(word)], log, Int(|word|), watched)
  }

  /** From `sum` on, the chain does what `AfterSum` says. */
  lemma SumStage(w: World, v: Value, h: Heap, watched: bool)
    requires WordGraph(w) && |h.cells| == 3
    requires if watched then SumWatched(w) else w.nodes[5].next == []
    ensures Drain(w.nodes, w.rank, [Visit(5, v)], h, 6) == AfterSum(h.cells, h.log, v, watched)
  {
    StoreVisit(w, 5, v, h);
    var h1 := h.(cells := h.cells[2 := v]);
    if h.cells[2] == v {
      DrainStop(w.nodes, w.rank, Visit(5, v), h, 6, h);
    } else if !watched {
      DrainStop(w.nodes, w.rank, Visit(5, v), h, 6, h1);
    } else {
      assert Children(w.nodes[5].next, v) == [Visit(7, v)];
      DrainPass(w.nodes, w.rank, Visit(5, v), h, 6, h1, Visit(7, v));
      WatcherStage(w, 7, 7, v, h1);
    }
  }

  /** The edge into `sum` adds `v` to sum's state and hands the result to
      `sum`, or stops when that is no number. */
  lemma SumEdgeVisit(w: World, v: Value, h: Heap)
    requires WordGraph(w) && |h.cells| == 3
    ensures var sum := AddPrevious(v, h.cells[2]);
      VisitNode(w.nodes, Visit(6, v), h) == if sum == Undef then (h, []) else (h, [Visit(5, sum)])
  {
    EdgeVisit(w, 6, v, h, MapFn(AddPrevious), StateOf(w, 5));
    assert MapFn(AddPrevious)(v, map[StateKey := h.cells[2]]) ==
      AddPrevious(v, Lookup(map[StateKey := h.cells[2]], StateKey));
    assert Children(w.nodes[6].next, AddPrevious(v, h.cells[2])) == [Visit(5, AddPrevious(v, h.cells[2]))];
  }

  /** From the edge into `sum` on: `sum` is handed `v` plus its previous
      value, or the chain stops when that is no number. */
  lemma AddStage(w: World, v: Value, h: Heap, watched: bool)
    requires WordGraph(w) && |h.cells| == 3
    requires if watched then SumWatched(w) else w.nodes[5].next == []
    ensures var sum := AddPrevious(v, h.cells[2]);
      Drain(w.nodes, w.rank, [Visit(6, v)], h, 5) == if sum == Undef then h else AfterSum(h.cells, h.log, sum, watched)
  {
    var sum := AddPrevious(v, h.cells[2]);
    SumEdgeVisit(w, v, h);
    if sum == Undef {
      DrainStop(w.nodes, w.rank, Visit(6, v), h, 5, h);
    } else {
      DrainPass(w.nodes, w.rank, Visit(6, v), h, 5, h, Visit(5, sum));
      SumStage(w, sum, h, watched);
    }
  }

  /** From `b` on, the chain does what `AfterLength` says. */
  lemma LengthStage(w: World, v: Value, h: Heap, watched: bool)
    requires WordGraph(w) && |h.cells| == 3
    requires if watched then SumWatched(w) else w.nodes[5].next == []
    ensures Drain(w.nodes, w.rank, [Visit(3, v)], h, 4) == AfterLength(h.cells, h.log, v, watched)
  {
    if h.cells[1] == v {
      FrontTailSame(w, TakePayload, Length, v, h);
    } else {
      var h1 := h.(cells := h.cells[1 := v]);
      assert h1.cells[2] == h.cells[2];
      FrontTailChanged(w, TakePayload, Length, v, h, 6);
      AddStage(w, v, h1, watched);
    }
  }

  /** Firing `newWord(word)` on the word chain does what the test expects,
      whatever the cells and the record of calls held before. */
  lemma FireWord(w: World, word: string, watched: bool)
    requires WordGraph(w) && w.nodes[0].next == [2]
    requires if watched then SumWatched(w) else w.nodes[5].next == []
    ensures var r := Fire(w, 0, Str(word)); Heap(r.cells, r.log) == AfterWord(w.cells, w.log, word, watched)
  {
    var h0 := Heap(w.cells, w.log);
    var a := Str(word);
    FrontReachesStore(w, TakePayload, Length, a);
    assert TakePayload(w.cells[0], a) == a;
    if w.cells[0] == a {
      FrontStoreSame(w, TakePayload, Length, a, h0);
    } else {
      var h1 := h0.(cells := w.cells[0 := a]);
      FrontStoreChanged(w, TakePayload, Length, a, h0);
      FrontEdge(w, TakePayload, Length, a, h1);
      LengthStage(w, Int(|word|), h1, watched);
    }
  }

  /* ---------- The counter chain of the handler-argument tests ---------- */

  /** `inc = createEvent()`, `store = createStore(0).on(inc, x => x + 1)`,
      `computed = store.map((x, state) => `(${x}, ${state})`, initial)` and
      `computed.watch(fn)` as node 5. */
  ghost predicate CounterGraph(w: World)
  {
    Front(w, Increment, Describe) && |w.nodes| >= 6 && |w.cells| == 2 &&
    w.nodes[0].next == [2] && w.nodes[3].next == [5] && w.rank[5] >= 5 &&
    w.nodes[5].cmds == [Run(5, Itself)] && w.nodes[5].next == []
  }

  /** The counter chain as the tests build it: `fn` is called at once with
      what `.map` seeded `computed` with. */
  function CounterChain(rs: StateRef, rc: StateRef, initial: Value): (w: World)
    requires rs.id == 0 && rc.id == 1
    ensures CounterGraph(w)
    ensures w.cells == [Int(0), Describe(Int(0), initial)] && w.log == [Call(5, Describe(Int(0), initial))]
  {
    var w1 := CreateStore(CreateUnit(Empty, Event, "inc"), rs, Int(0)).value;
    Chain1Holds(rs, "inc", Int(0));
    var w2 := On(w1, 1, 0, Increment);
    Chain2Holds(w1, rs, "inc", Int(0), Increment);
    var w3 := Map(w2, 1, rc, Describe, initial);
    Chain3Holds(w2, rs, rc, "inc", Int(0), Increment, Describe, initial);
    Chain3IsFront(w3, rs, rc, "inc", Int(0), Increment, Describe, initial);
    CounterWatched(w3, initial);
    Watch(w3, 3)
  }

  lemma CounterWatched(w: World, initial: Value)
    requires Front(w, Increment, Describe) && |w.nodes| == 5 && w.nodes[0].next == [2] && w.nodes[3].next == []
    requires w.cells == [Int(0), Describe(Int(0), initial)] && w.log == []
    ensures var r := Watch(w, 3);
      CounterGraph(r) && r.cells == w.cells && r.log == [Call(5, Describe(Int(0), initial))]
  {
    var r := Watch(w, 3);
    FrontKept(w, r, 3, Increment, Describe);
    assert 5 in r.nodes[3].next;
    assert GetState(w, 3) == w.cells[1];
  }

  /** What the test expects of `inc()`: the store counts up, and `computed`
      becomes the description of the new count and its own previous state,
      which `fn` then receives. */
  function AfterInc(c: seq<Value>, log: seq<Call>): Heap
    requires |c| == 2 && c[0].Int?
  {
    var n := Int(c[0].i + 1);
    var d := Describe(n, c[1]);
    if c[1] == d then Heap(c[0 := n], log) else Heap(c[0 := n][1 := d], log + [Call(5, d)])
  }

  lemma FireInc(w: World)
    requires CounterGraph(w) && w.cells[0].Int?
    ensures var r := Fire(w, 0, Undef); Heap(r.cells, r.log) == AfterInc(w.cells, w.log)
  {
    var n := Int(w.cells[0].i + 1);
    var h0 := Heap(w.cells, w.log);
    var h1 := h0.(cells := w.cells[0 := n]);
    var d := Describe(n, w.cells[1]);
    FrontReachesStore(w, Increment, Describe, Undef);
    FrontStoreChanged(w, Increment, Describe, n, h0);
    FrontEdge(w, Increment, Describe, n, h1);
    if w.cells[1] == d {
      FrontTailSame(w, Increment, Describe, d, h1);
    } else {
      FrontTailChanged(w, Increment, Describe, d, h1, 5);
      WatcherStage(w, 5, 5, d, h1.(cells := h1.cells[1 := d]));
    }
  }

  lemma FireKeepsCounterGraph(w: World, p: Value)
    requires CounterGraph(w)
    ensures CounterGraph(Fire(w, 0, p))
  {
  }

  /* ---------- The tests ---------- */

  /** `createStore(undefined)` throws; any defined initial state is accepted. */
  lemma CreateStoreUndefined(w: World, ref: StateRef)
    requires Wf(w) && ref.id == |w.cells|
    ensures CreateStore(w, ref, Undef).Failure?
    ensures forall init :: init != Undef ==> CreateStore(w, ref, init).Ok?
  {
  }

  /** The word chain with the spy on `sum`, holding cells `c` after calls `log`. */
  ghost predicate Watched(w: World, c: seq<Value>, log: seq<Call>)
  {
    WordGraph(w) && w.nodes[0].next == [2] && SumWatched(w) && w.cells == c && w.log == log
  }

  /** One `newWord(word)` on the watched word chain, its outcome named. */
  lemma WatchedStep(w: World, word: string, c: seq<Value>, log: seq<Call>, c1: seq<Value>, log1: seq<Call>)
    requires Watched(w, c, log) && AfterWord(c, log, word, true) == Heap(c1, log1)
    ensures Watched(Fire(w, 0, Str(word)), c1, log1)
  {
    FireWord(w, word, true);
  }

  /** `.map` supports basic mapping (and `.watch` supports functions): right
      after `sum.watch(spy)`, a, b and sum hold 'word', 4 and 4, and the spy
      has been called once, with 4. */
  lemma MappingStart(ra: StateRef, rb: StateRef, rs: StateRef)
    requires ra.id == 0 && rb.id == 1 && rs.id == 2
    ensures Watched(WatchedChain(ra, rb, rs), [Str("word"), Int(4), Int(4)], [Call(7, Int(4))])
  {
  }

  /** `newWord('lol')`: a, b and sum become 'lol', 3 and 7; the spy sees 7. */
  lemma MappingLol(w: World)
    requires Watched(w, [Str("word"), Int(4), Int(4)], [Call(7, Int(4))])
    ensures Watched(Fire(w, 0, Str("lol")), [Str("lol"), Int(3), Int(7)], [Call(7, Int(4)), Call(7, Int(7))])
  {
    WatchedStep(w, "lol", w.cells, w.log, [Str("lol"), Int(3), Int(7)], [Call(7, Int(4)), Call(7, Int(7))]);
  }

  /** `newWord('long word')`: 'long word', 9 and 16; the spy has been called
      three times. */
  lemma MappingLongWord(w: World)
    requires Watched(w, [Str("lol"), Int(3), Int(7)], [Call(7, Int(4)), Call(7, Int(7))])
    ensures Watched(Fire(w, 0, Str("long word")), [Str("long word"), Int(9), Int(16)],
                    [Call(7, Int(4)), Call(7, Int(7)), Call(7, Int(16))])
  {
    WatchedStep(w, "long word", w.cells, w.log, [Str("long word"), Int(9), Int(16)],
                [Call(7, Int(4)), Call(7, Int(7)), Call(7, Int(16))]);
  }

  /** `newWord('')`: b drops to 0 and sum stays at 0 + 16, so the spy is not
      called a fourth time. */
  lemma MappingEmptyWord(w: World)
    requires Watched(w, [Str("long word"), Int(9), Int(16)], [Call(7, Int(4)), Call(7, Int(7)), Call(7, Int(16))])
    ensures Watched(Fire(w, 0, Str("")), [Str(""), Int(0), Int(16)], [Call(7, Int(4)), Call(7, Int(7)), Call(7, Int(16))])
  {
    WatchedStep(w, "", w.cells, w.log, [Str(""), Int(0), Int(16)], w.log);
  }

  /** The watch returns an unsubscribe function: after `newWord('lol')` and
      `newWord('long word [1]')` the spy has been called three times (4, 7
      and 20). */
  lemma UnsubscribeBefore(w: World)
    requires Watched(w, [Str("lol"), Int(3), Int(7)], [Call(7, Int(4)), Call(7, Int(7))])
    ensures Watched(Fire(w, 0, Str("long word [1]")), [Str("long word [1]"), Int(13), Int(20)],
                    [Call(7, Int(4)), Call(7, Int(7)), Call(7, Int(20))])
  {
    WatchedStep(w, "long word [1]", w.cells, w.log, [Str("long word [1]"), Int(13), Int(20)],
                [Call(7, Int(4)), Call(7, Int(7)), Call(7, Int(20))]);
  }

  /** `unsub()` then `newWord('long word _ [2]')`: the stores still follow the
      word, but the spy is not called again. */
  lemma UnsubscribeAfter(w: World, log: seq<Call>)
    requires Watched(w, [Str("long word [1]"), Int(13), Int(20)], log)
    ensures var r := Fire(Unsubscribe(w, 5, 7), 0, Str("long word _ [2]"));
      r.cells == [Str("long word _ [2]"), Int(15), Int(35)] && r.log == log
  {
    var u := Unsubscribe(w, 5, 7);
    WordGraphKept(w, u, 5);
    FireWord(u, "long word _ [2]", false);
  }

  /** `a.off(newWord)` after `newWord('lol')`: the event no longer reaches
      `a`, so `newWord('long word')` and `newWord('')` leave a, b and sum at
      'lol', 3 and 7, and the spy at two calls. */
  lemma OffSilences(w: World)
    requires Watched(w, [Str("lol"), Int(3), Int(7)], [Call(7, Int(4)), Call(7, Int(7))])
    ensures var r1 := Fire(Off(w, 0, 2), 0, Str("long word"));
      var r2 := Fire(r1, 0, Str(""));
      r1.cells == [Str("lol"), Int(3), Int(7)] && r2.cells == r1.cells &&
      r2.log == [Call(7, Int(4)), Call(7, Int(7))]
  {
    var r := Off(w, 0, 2);
    assert r.nodes[0].cmds == w.nodes[0].cmds;
    FireLeaf(r, 0, Str("long word"));
    FireLeaf(r, 0, Str(""));
  }

  /* ---------- `sum.watch(spyEvent, (store, event) => spy(store, event))` ---------- */

  /** `spyEvent` is node 7 and its watcher node 8, which calls the spy with
      `sum`'s state (cell 2) and the payload. */
  ghost predicate SpyHooked(w: World)
  {
    |w.nodes| >= 9 && IsStore(w, 5) &&
    |w.nodes[7].cmds| == 1 && w.nodes[7].cmds[0].Emit? && w.nodes[7].next == [8] &&
    w.nodes[8].cmds == [Run(8, WithState)] && w.nodes[8].scope == map[StateKey := StateOf(w, 5)] &&
    w.nodes[8].next == []
  }

  /** The word chain with the spy hooked on `spyEvent`, holding cells `c`
      after calls `log`. */
  ghost predicate Hooked(w: World, c: seq<Value>, log: seq<Call>)
  {
    WordGraph(w) && w.nodes[0].next == [2] && w.nodes[5].next == [] && SpyHooked(w) &&
    w.cells == c && w.log == log
  }

  /** The word chain, then `spyEvent` (an event or an effect) and the watch
      on it. */
  function HookedChain(ra: StateRef, rb: StateRef, rs: StateRef, kind: Kind): (w: World)
    requires ra.id == 0 && rb.id == 1 && rs.id == 2
    ensures Hooked(w, [Str("word"), Int(4), Int(4)], [])
  {
    var w0 := WordChain(ra, rb, rs);
    var w1 := CreateUnit(w0, kind, "spy event");
    WordGraphKept(w0, w1, 7);
    HookKeeps(w1);
    WatchUnit(w1, 5, 7)
  }

  lemma HookKeeps(w: World)
    requires WordGraph(w) && |w.nodes| == 8 && w.nodes[0].next == [2] && w.nodes[5].next == []
    requires |w.nodes[7].cmds| == 1 && w.nodes[7].cmds[0].Emit? && w.nodes[7].next == []
    ensures var r := WatchUnit(w, 5, 7); Hooked(r, w.cells, w.log)
  {
    var r := WatchUnit(w, 5, 7);
    WordGraphKept(w, r, 7);
  }

  /** `newWord(word)` with the spy hooked on `spyEvent`: no call. */
  lemma HookedWord(w: World, word: string, c: seq<Value>, log: seq<Call>, c1: seq<Value>)
    requires Hooked(w, c, log) && AfterWord(c, log, word, false) == Heap(c1, log)
    ensures Hooked(Fire(w, 0, Str(word)), c1, log)
  {
    FireWord(w, word, false);
  }

  /** `spyEvent(v)`: one call with `sum`'s state and `v`; nothing else changes. */
  lemma HookedSpy(w: World, v: Value, c: seq<Value>, log: seq<Call>)
    requires Hooked(w, c, log)
    ensures Hooked(Fire(w, 7, v), c, log + [Call(8, Arr([c[2], v]))])
  {
    var h := Heap(w.cells, w.log);
    UnitVisit(w, 7, v, h);
    assert Children(w.nodes[7].next, v) == [Visit(8, v)];
    DrainPass(w.nodes, w.rank, Visit(7, v), h, w.rank[7], h, Visit(8, v));
    UnitWatcherStage(w, 8, w.rank[7] + 1, v, h, StateOf(w, 5));
  }

  /** `newWord('lol')`, then `spyEvent(1)` and `spyEvent(2)`: the spy is
      called only by the event, twice, with sum's 7. */
  lemma SpyFirstCalls(w: World)
    requires Hooked(w, [Str("word"), Int(4), Int(4)], [])
    ensures var w1 := Fire(w, 0, Str("lol"));
      Hooked(w1, [Str("lol"), Int(3), Int(7)], []) &&
      Hooked(Fire(Fire(w1, 7, Int(1)), 7, Int(2)), [Str("lol"), Int(3), Int(7)],
             [Call(8, Arr([Int(7), Int(1)])), Call(8, Arr([Int(7), Int(2)]))])
  {
    HookedWord(w, "lol", w.cells, [], [Str("lol"), Int(3), Int(7)]);
    var w1 := Fire(w, 0, Str("lol"));
    HookedSpy(w1, Int(1), w1.cells, []);
    HookedSpy(Fire(w1, 7, Int(1)), Int(2), w1.cells, [Call(8, Arr([Int(7), Int(1)]))]);
  }

  /** `newWord('')` then `newWord(' ')`: sum stays at 7, then becomes 8; the
      spy is not called. */
  lemma SpyWordsOnly(w: World, log: seq<Call>)
    requires Hooked(w, [Str("lol"), Int(3), Int(7)], log)
    ensures var w1 := Fire(w, 0, Str(""));
      Hooked(w1, [Str(""), Int(0), Int(7)], log) &&
      Hooked(Fire(w1, 0, Str(" ")), [Str(" "), Int(1), Int(8)], log)
  {
    HookedWord(w, "", w.cells, log, [Str(""), Int(0), Int(7)]);
    HookedWord(Fire(w, 0, Str("")), " ", [Str(""), Int(0), Int(7)], log, [Str(" "), Int(1), Int(8)]);
  }

  /** `spyEvent(3)` then `newWord('long word')`: the third call is `[8, 3]`,
      and the word adds none. */
  lemma SpyLastCall(w: World, log: seq<Call>)
    requires Hooked(w, [Str(" "), Int(1), Int(8)], log)
    ensures Hooked(Fire(Fire(w, 7, Int(3)), 0, Str("long word")), [Str("long word"), Int(9), Int(17)],
                   log + [Call(8, Arr([Int(8), Int(3)]))])
  {
    HookedSpy(w, Int(3), w.cells, log);
    HookedWord(Fire(w, 7, Int(3)), "long word", w.cells, log + [Call(8, Arr([Int(8), Int(3)]))],
               [Str("long word"), Int(9), Int(17)]);
  }

  /* ---------- The handler-argument tests ---------- */

  /** The counter chain holding cells `c` after calls `log`. */
  ghost predicate Counting(w: World, c: seq<Value>, log: seq<Call>)
  {
    CounterGraph(w) && w.cells == c && w.log == log
  }

  /** One `inc()` with the count at `n` and `computed` at `s`: the count goes
      up, and `fn` receives the new description, which nests the old one. */
  lemma CountingStep(w: World, n: int, s: string, log: seq<Call>)
    requires Counting(w, [Int(n), Str(s)], log)
    ensures var d := Describe(Int(n + 1), Str(s));
      Counting(Fire(w, 0, Undef), [Int(n + 1), d], log + [Call(5, d)])
  {
    FireInc(w);
    var d := Describe(Int(n + 1), Str(s));
    assert |d.s| > |s|;
    assert [Int(n), Str(s)][0 := Int(n + 1)][1 := d] == [Int(n + 1), d];
  }

  lemma ShowDigits()
    ensures Show(Int(0)) == "0" && Show(Int(1)) == "1" && Show(Int(2)) == "2"
  {
  }

  /** `Describe` of the count `n`, shown as `digit`, and a state text. */
  lemma Described(n: int, digit: string, state: string, text: string)
    requires Show(Int(n)) == digit && text == "(" + digit + ", " + state + ")"
    ensures Describe(Int(n), Str(state)) == Str(text)
  {
  }

  lemma UndefinedText0()
    ensures Describe(Int(0), Undef) == Str("(0, undefined)")
  {
    ShowDigits();
    assert "(" + "0" + ", " + "undefined" + ")" == "(0, undefined)";
  }

  lemma UndefinedText1()
    ensures Describe(Int(1), Str("(0, undefined)")) == Str("(1, (0, undefined))")
  {
    ShowDigits();
    assert "(" + "1" + ", " + "(0, undefined)" + ")" == "(1, (0, undefined))";
    Described(1, "1", "(0, undefined)", "(1, (0, undefined))");
  }

  lemma UndefinedText2()
    ensures Describe(Int(2), Str("(1, (0, undefined))")) == Str("(2, (1, (0, undefined)))")
  {
    ShowDigits();
    assert "(" + "2" + ", " + "(1, (0, undefined))" + ")" == "(2, (1, (0, undefined)))";
    Described(2, "2", "(1, (0, undefined))", "(2, (1, (0, undefined)))");
  }

  /** The descriptions the test lists, without an initial state. */
  lemma UndefinedTexts()
    ensures Describe(Int(0), Undef) == Str("(0, undefined)")
    ensures Describe(Int(1), Str("(0, undefined)")) == Str("(1, (0, undefined))")
    ensures Describe(Int(2), Str("(1, (0, undefined))")) == Str("(2, (1, (0, undefined)))")
  {
    UndefinedText0();
    UndefinedText1();
    UndefinedText2();
  }

  lemma InitialText0()
    ensures Describe(Int(0), Str("initial")) == Str("(0, initial)")
  {
    ShowDigits();
    assert "(" + "0" + ", " + "initial" + ")" == "(0, initial)";
    Described(0, "0", "initial", "(0, initial)");
  }

  lemma InitialText1()
    ensures Describe(Int(1), Str("(0, initial)")) == Str("(1, (0, initial))")
  {
    ShowDigits();
    assert "(" + "1" + ", " + "(0, initial)" + ")" == "(1, (0, initial))";
    Described(1, "1", "(0, initial)", "(1, (0, initial))");
  }

  lemma InitialText2()
    ensures Describe(Int(2), Str("(1, (0, initial))")) == Str("(2, (1, (0, initial)))")
  {
    ShowDigits();
    assert "(" + "2" + ", " + "(1, (0, initial))" + ")" == "(2, (1, (0, initial)))";
    Described(2, "2", "(1, (0, initial))", "(2, (1, (0, initial)))");
  }

  /** The descriptions the test lists, with the initial state 'initial'. */
  lemma InitialTexts()
    ensures Describe(Int(0), Str("initial")) == Str("(0, initial)")
    ensures Describe(Int(1), Str("(0, initial)")) == Str("(1, (0, initial))")
    ensures Describe(Int(2), Str("(1, (0, initial))")) == Str("(2, (1, (0, initial)))")
  {
    InitialText0();
    InitialText1();
    InitialText2();
  }

  /** `.map` calls the handler with the current state as second argument:
      with no initial state, `fn` receives "(0, undefined)" at once. */
  lemma HandlerStart(rs: StateRef, rc: StateRef)
    requires rs.id == 0 && rc.id == 1
    ensures Counting(CounterChain(rs, rc, Undef), [Int(0), Str("(0, undefined)")], [Call(5, Str("(0, undefined)"))])
  {
    UndefinedTexts();
  }

  /** Then `inc()` twice: "(1, (0, undefined))" and "(2, (1, (0, undefined)))". */
  lemma HandlerIncs(w: World)
    requires Counting(w, [Int(0), Str("(0, undefined)")], [Call(5, Str("(0, undefined)"))])
    ensures Fire(Fire(w, 0, Undef), 0, Undef).log ==
      [Call(5, Str("(0, undefined)")), Call(5, Str("(1, (0, undefined))")), Call(5, Str("(2, (1, (0, undefined)))"))]
  {
    UndefinedTexts();
    CountingStep(w, 0, "(0, undefined)", w.log);
    CountingStep(Fire(w, 0, Undef), 1, "(1, (0, undefined))", w.log + [Call(5, Str("(1, (0, undefined))"))]);
  }

  /** `.map` accepts an initial state as second argument: `fn` receives
      "(0, initial)" at once. */
  lemma InitialStart(rs: StateRef, rc: StateRef)
    requires rs.id == 0 && rc.id == 1
    ensures Counting(CounterChain(rs, rc, Str("initial")), [Int(0), Str("(0, initial)")], [Call(5, Str("(0, initial)"))])
  {
    InitialTexts();
  }

  /** Then `inc()` twice: "(1, (0, initial))" and "(2, (1, (0, initial)))". */
  lemma InitialIncs(w: World)
    requires Counting(w, [Int(0), Str("(0, initial)")], [Call(5, Str("(0, initial)"))])
    ensures Fire(Fire(w, 0, Undef), 0, Undef).log ==
      [Call(5, Str("(0, initial)")), Call(5, Str("(1, (0, initial))")), Call(5, Str("(2, (1, (0, initial)))"))]
  {
    InitialTexts();
    CountingStep(w, 0, "(0, initial)", w.log);
    CountingStep(Fire(w, 0, Undef), 1, "(1, (0, initial))", w.log + [Call(5, Str("(1, (0, initial))"))]);
  }

  /* ---------- Nested mapping with updates skipping ---------- */

  /** `a = createStore(null)`, `b = a.map(f)` with an `f` that yields
      `undefined` for `null`, `c = b.map(g)`: `c` holds no value whatever `g`
      is, since `g` is never applied to `b`'s missing value. */
  lemma NestedSkipping(ra: StateRef, rb: StateRef, rc: StateRef, f: (Value, Value) -> Value, g: (Value, Value) -> Value)
    requires ra.id == 0 && rb.id == 1 && rc.id == 2 && f(Null, Undef) == Undef
    ensures var a := CreateStore(Empty, ra, Null).value;
      var b := Map(a, 0, rb, f, Undef);
      GetState(b, 1) == Undef && GetState(Map(b, 1, rc, g, Undef), 3) == Undef
  {
  }
}
