/** The store tests driven through the imperative runtime: each method makes
    the calls its test makes, on a fresh runtime, and promises what the test
    expects of `getState()` and of the spy. The pure scenarios of
    `StoreScenarios` carry the proofs; the runtime's contracts tie its state
    to them. */
module LiveScenarios {
  import opened Values
  import opened Graphs
  import opened Executor
  import opened Stores
  import opened StoreScenarios
  import opened Engine

  /** A store stays usable while its runtime only grows the world. */
  lemma StillValid(s: Store, w: World)
    requires s.rt.Valid() && StoreAt(w.nodes, s.node, s.cell) && Extends(w, s.rt.State())
    ensures s.Bound()
  {
    StoreKept(w, s.rt.State(), s.node, s.cell);
  }

  lemma ThreeCells(refs: seq<StateRef>, x: StateRef, y: StateRef, z: StateRef)
    requires |refs| == 3 && x.id == 0 && y.id == 1 && z.id == 2
    requires refs[x.id] == x && refs[y.id] == y && refs[z.id] == z
    ensures refs == [x, y, z]
  {
  }

  lemma ThreeValues(c: seq<Value>, x: Value, y: Value, z: Value)
    requires |c| == 3 && c[0] == x && c[1] == y && c[2] == z
    ensures c == [x, y, z]
  {
  }

  /** `createStore(undefined)` throws. */
  method UndefinedRefused() returns (r: Result<Store>)
    ensures r.Failure?
  {
    var rt := new Runtime();
    r := rt.CreateStore(Undef);
  }

  /** `a.off(newWord)` returns `a` itself, as `.on` does. */
  method OffReturnsStore() returns (a: Store, fromOn: Store, fromOff: Store)
    ensures fromOn == a && fromOff == a
  {
    var rt := new Runtime();
    var newWord := rt.CreateUnit(Event, "newWord");
    var r := rt.CreateStore(Str("word"));
    a := r.value;
    Chain1Holds(a.cell, "newWord", Str("word"));
    fromOn := a.On(newWord, TakePayload);
    fromOff := a.Off(newWord);
  }

  /** The word stores of a test, live on `rt`: stores a, b and sum are nodes
      1, 3 and 5 and write the runtime's three cells, in order. */
  ghost predicate Live(rt: Runtime, a: Store, b: Store, sum: Store)
    reads rt, rt.refs, a, b, sum
  {
    rt.Valid() && a.rt == rt && b.rt == rt && sum.rt == rt &&
    a.node == 1 && b.node == 3 && sum.node == 5 && sum.handlers == map[] && rt.refs == [a.cell, b.cell, sum.cell] &&
    StoreAt(rt.nodes, 1, a.cell) && StoreAt(rt.nodes, 3, b.cell) && StoreAt(rt.nodes, 5, sum.cell)
  }

  /** `newWord = createEvent()`, `a = createStore('word').on(newWord, (_, word) => word)`,
      `b = a.map(word => word.length)`, `sum = b.map((ln, prevLn) => ln + prevLn, 0)`. */
  method WordStores() returns (rt: Runtime, a: Store, b: Store, sum: Store)
    ensures fresh(rt) && fresh(a) && fresh(b) && fresh(sum) && fresh(a.cell) && fresh(b.cell) && fresh(sum.cell)
    ensures Live(rt, a, b, sum) && a.cell.id == 0 && b.cell.id == 1 && sum.cell.id == 2
    ensures rt.State() == WordChain(a.cell, b.cell, sum.cell)
  {
    rt := new Runtime();
    var newWord := rt.CreateUnit(Event, "newWord");
    var r := rt.CreateStore(Str("word"));
    a := r.value;
    ghost var w1 := rt.State();
    Chain1Holds(a.cell, "newWord", Str("word"));
    var _ := a.On(newWord, TakePayload);
    ghost var w2 := rt.State();
    Chain2Holds(w1, a.cell, "newWord", Str("word"), TakePayload);
    b := a.Map(Length, Undef);
    ghost var w3 := rt.State();
    sum := b.Map(AddPrevious, Int(0));
    MapExtends(w3, 3, sum.cell, AddPrevious, Int(0));
    StillValid(a, w3);
    CellOwned(a);
    CellOwned(b);
    CellOwned(sum);
    assert |rt.refs| == |rt.State().cells|;
    ThreeCells(rt.refs, a.cell, b.cell, sum.cell);
  }

  /** `sum.watch(spy)` on the word stores. */
  method WatchSum(rt: Runtime, a: Store, b: Store, sum: Store) returns (unsub: Subscription)
    requires Live(rt, a, b, sum)
    modifies rt`nodes, rt`rank, rt`calls
    ensures Live(rt, a, b, sum) && unsub == Subscription(5, old(|rt.nodes|))
    ensures rt.State() == Stores.Watch(old(rt.State()), 5)
  {
    ghost var w := rt.State();
    unsub := sum.Watch();
    StoreKept(w, rt.State(), 1, a.cell);
    StoreKept(w, rt.State(), 3, b.cell);
    assert rt.refs == old(rt.refs);
  }

  /** `getState()` of a, b and sum. */
  method States(rt: Runtime, a: Store, b: Store, sum: Store) returns (s: seq<Value>)
    requires Live(rt, a, b, sum)
    ensures s == rt.State().cells && rt.State() == old(rt.State())
  {
    var x := a.GetState();
    var y := b.GetState();
    var z := sum.GetState();
    s := [x, y, z];
    ThreeValues(rt.State().cells, x, y, z);
  }

  /** `newWord(word)`, then `getState()` of a, b and sum. */
  method NewWord(rt: Runtime, a: Store, b: Store, sum: Store, word: string) returns (s: seq<Value>)
    requires Live(rt, a, b, sum)
    modifies rt`calls, a.cell, b.cell, sum.cell
    ensures Live(rt, a, b, sum)
    ensures rt.State() == Fire(old(rt.State()), 0, Str(word))
    ensures s == rt.State().cells
  {
    rt.Launch(0, Str(word));
    s := States(rt, a, b, sum);
  }

  /** The three words of the basic mapping test, fired in turn at the watched
      word chain. */
  lemma MappingRun(ra: StateRef, rb: StateRef, rs: StateRef)
    requires ra.id == 0 && rb.id == 1 && rs.id == 2
    ensures var w1 := Fire(WatchedChain(ra, rb, rs), 0, Str("lol"));
            var w2 := Fire(w1, 0, Str("long word"));
            var w3 := Fire(w2, 0, Str(""));
            w1.cells == [Str("lol"), Int(3), Int(7)] && w2.cells == [Str("long word"), Int(9), Int(16)] &&
            w3.log == [Call(7, Int(4)), Call(7, Int(7)), Call(7, Int(16))]
  {
    var w0 := WatchedChain(ra, rb, rs);
    MappingLol(w0);
    var w1 := Fire(w0, 0, Str("lol"));
    MappingLongWord(w1);
    MappingEmptyWord(Fire(w1, 0, Str("long word")));
  }

  /** On the watched word stores: a, b and sum read 'word', 4 and 4; then
      `newWord('lol')`, `newWord('long word')` and `newWord('')`. */
  method Words(rt: Runtime, a: Store, b: Store, sum: Store) returns (s0: seq<Value>, s1: seq<Value>, s2: seq<Value>, spy: seq<Call>)
    requires Live(rt, a, b, sum) && a.cell.id == 0 && b.cell.id == 1 && sum.cell.id == 2
    requires rt.State() == WatchedChain(a.cell, b.cell, sum.cell)
    modifies rt`calls, a.cell, b.cell, sum.cell
    ensures s0 == [Str("word"), Int(4), Int(4)]
    ensures s1 == [Str("lol"), Int(3), Int(7)] && s2 == [Str("long word"), Int(9), Int(16)]
    ensures spy == [Call(7, Int(4)), Call(7, Int(7)), Call(7, Int(16))]
  {
    s0 := States(rt, a, b, sum);
    s1 := NewWord(rt, a, b, sum, "lol");
    s2 := NewWord(rt, a, b, sum, "long word");
    var _ := NewWord(rt, a, b, sum, "");
    MappingRun(a.cell, b.cell, sum.cell);
    spy := rt.calls;
  }

  /** `.map` supports basic mapping: a, b and sum read 'word', 4 and 4, then
      'lol', 3 and 7, then 'long word', 9 and 16; the spy has been called
      three times, and `newWord('')` does not call it again. */
  method BasicMapping() returns (states: seq<seq<Value>>, spy: seq<Call>)
    ensures states == [[Str("word"), Int(4), Int(4)], [Str("lol"), Int(3), Int(7)],
                       [Str("long word"), Int(9), Int(16)]]
    ensures spy == [Call(7, Int(4)), Call(7, Int(7)), Call(7, Int(16))]
  {
    var rt, a, b, sum := WordStores();
    var _ := WatchSum(rt, a, b, sum);
    var s0, s1, s2;
    s0, s1, s2, spy := Words(rt, a, b, sum);
    states := [s0, s1, s2];
  }

  /** `unsub()` on the watch of `sum`. */
  method Unwatch(rt: Runtime, a: Store, b: Store, sum: Store, unsub: Subscription)
    requires Live(rt, a, b, sum) && unsub.parent == 5
    modifies rt`nodes
    ensures Live(rt, a, b, sum)
    ensures rt.State() == Stores.Unsubscribe(old(rt.State()), 5, unsub.node)
  {
    ghost var w := rt.State();
    rt.Unsubscribe(unsub);
    assert rt.refs == old(rt.refs);
    StoreKept(w, rt.State(), 1, a.cell);
    StoreKept(w, rt.State(), 3, b.cell);
    StoreKept(w, rt.State(), 5, sum.cell);
  }

  /** The words of the unsubscribe test, fired at the watched word chain,
      with the watch removed before the last one. */
  lemma UnsubscribeRun(ra: StateRef, rb: StateRef, rs: StateRef)
    requires ra.id == 0 && rb.id == 1 && rs.id == 2
    ensures var w1 := Fire(WatchedChain(ra, rb, rs), 0, Str("lol"));
            var w2 := Fire(w1, 0, Str("long word [1]"));
            var w3 := Fire(Stores.Unsubscribe(w2, 5, 7), 0, Str("long word _ [2]"));
            w1.cells == [Str("lol"), Int(3), Int(7)] && w2.cells == [Str("long word [1]"), Int(13), Int(20)] &&
            w3.cells == [Str("long word _ [2]"), Int(15), Int(35)] &&
            w3.log == [Call(7, Int(4)), Call(7, Int(7)), Call(7, Int(20))]
  {
    var w0 := WatchedChain(ra, rb, rs);
    MappingLol(w0);
    var w1 := Fire(w0, 0, Str("lol"));
    UnsubscribeBefore(w1);
    UnsubscribeAfter(Fire(w1, 0, Str("long word [1]")), [Call(7, Int(4)), Call(7, Int(7)), Call(7, Int(20))]);
  }

  /** On the watched word stores: `newWord('lol')`, `newWord('long word [1]')`,
      `unsub()`, `newWord('long word _ [2]')`. */
  method UnsubscribeWords(rt: Runtime, a: Store, b: Store, sum: Store, unsub: Subscription)
    returns (s1: seq<Value>, s2: seq<Value>, s3: seq<Value>, spy: seq<Call>)
    requires Live(rt, a, b, sum) && a.cell.id == 0 && b.cell.id == 1 && sum.cell.id == 2
    requires rt.State() == WatchedChain(a.cell, b.cell, sum.cell) && unsub == Subscription(5, 7)
    modifies rt`nodes, rt`calls, a.cell, b.cell, sum.cell
    ensures s1 == [Str("lol"), Int(3), Int(7)] && s2 == [Str("long word [1]"), Int(13), Int(20)]
    ensures s3 == [Str("long word _ [2]"), Int(15), Int(35)]
    ensures spy == [Call(7, Int(4)), Call(7, Int(7)), Call(7, Int(20))]
  {
    s1 := NewWord(rt, a, b, sum, "lol");
    s2 := NewWord(rt, a, b, sum, "long word [1]");
    Unwatch(rt, a, b, sum, unsub);
    s3 := NewWord(rt, a, b, sum, "long word _ [2]");
    UnsubscribeRun(a.cell, b.cell, sum.cell);
    spy := rt.calls;
  }

  /** `.watch` returns an unsubscribe function: after `unsub()` the stores
      still follow the word ('long word _ [2]', 15 and 35), but the spy stays
      at three calls (4, 7 and 20). */
  method Unsubscribing() returns (states: seq<seq<Value>>, spy: seq<Call>)
    ensures states == [[Str("lol"), Int(3), Int(7)], [Str("long word [1]"), Int(13), Int(20)],
                       [Str("long word _ [2]"), Int(15), Int(35)]]
    ensures spy == [Call(7, Int(4)), Call(7, Int(7)), Call(7, Int(20))]
  {
    var rt, a, b, sum := WordStores();
    var unsub := WatchSum(rt, a, b, sum);
    var s1, s2, s3;
    s1, s2, s3, spy := UnsubscribeWords(rt, a, b, sum, unsub);
    states := [s1, s2, s3];
  }
}
