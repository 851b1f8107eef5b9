/** The sequence executor: a node's commands run one after another against
    the traversal value, and the first command that says "stop" ends the node's
    run (a filter that says no, a compute that yields no value, an update that
    finds the cell already holding the value). */
module Executor {
  import opened Values
  import opened Graphs

  /** One invocation of a `run` callback: the node it belongs to and the
      arguments handed to the outside world. */
  datatype Call = Call(node: NodeRef, args: Value)

  /** What commands act on: the contents of every state cell (indexed by the
      cell's id) and the record of callback invocations so far. */
  datatype Heap = Heap(cells: seq<Value>, log: seq<Call>)

  datatype Halt = Filtered | NoValue | Unchanged

  datatype Outcome =
    | Continue(value: Value, heap: Heap)
    | Stop(reason: Halt, heap: Heap)

  /** The command kind whose verdict is the given reason for stopping. */
  predicate HaltsWith(c: Cmd, reason: Halt)
  {
    match reason
    case Filtered => c.Filter?
    case NoValue => c.Compute?
    case Unchanged => c.Update?
  }

  /** The cells a node's scope closes over, as the values they hold now. */
  function Snapshot(scope: map<string, StateRef>, cells: seq<Value>): (sc: Scope)
    requires ScopeBelow(scope, |cells|)
    ensures sc.Keys == scope.Keys
    ensures forall k :: k in scope ==> sc[k] == cells[scope[k].id]
  {
    map k | k in scope :: cells[scope[k].id]
  }

  /** One command of node `node`, run on value `v`. Exactly three kinds can stop
      the sequence, each on its own condition; a stopping command changes
      nothing; only `compute` replaces the value, only `update` writes a cell
      and only `run` records a call. */
  function Step(node: NodeRef, c: Cmd, v: Value, scope: map<string, StateRef>, h: Heap): (o: Outcome)
    requires CmdRefBelow(c, |h.cells|) && ScopeBelow(scope, |h.cells|)
    ensures |o.heap.cells| == |h.cells|
    ensures var sc := Snapshot(scope, h.cells);
      o.Stop? <==>
        (c.Filter? && !c.pred(v, sc)) ||
        (c.Compute? && c.fn(v, sc) == Undef) ||
        (c.Update? && h.cells[c.store.id] == v)
    ensures o.Stop? ==> o.heap == h && HaltsWith(c, o.reason)
    ensures o.Continue? ==>
      o.value == (if c.Compute? then c.fn(v, Snapshot(scope, h.cells)) else v) &&
      o.heap.cells == (if c.Update? then h.cells[c.store.id := v] else h.cells) &&
      o.heap.log == (if c.Run? then h.log + [Call(node, c.fn(v, Snapshot(scope, h.cells)))] else h.log)
  {
    var sc := Snapshot(scope, h.cells);
    match c
    case Update(_, store) =>
      if h.cells[store.id] == v then Stop(Unchanged, h)
      else Continue(v, h.(cells := h.cells[store.id := v]))
    case Run(_, fn) => Continue(v, h.(log := h.log + [Call(node, fn(v, sc))]))
    case Filter(_, pred) => if pred(v, sc) then Continue(v, h) else Stop(Filtered, h)
    case Emit(_, _) => Continue(v, h)
    case Compute(_, fn) =>
      var r := fn(v, sc);
      if r == Undef then Stop(NoValue, h) else Continue(r, h)
    case Barrier(_, _) => Continue(v, h)
  }

  lemma RefsBelowSuffix(cmds: seq<Cmd>, scope: map<string, StateRef>, n: nat, i: nat)
    requires RefsBelow(cmds, scope, n) && i <= |cmds|
    ensures RefsBelow(cmds[i..], scope, n)
    ensures i < |cmds| ==> CmdRefBelow(cmds[i], n)
  {
    assert forall j :: 0 <= j < |cmds| - i ==> cmds[i..][j] == cmds[i + j];
  }

  /** The whole sequence of node `node`. The cell arena keeps its size, the
      record of calls only grows, and every call it gains is one of `node`'s. */
  function Exec(node: NodeRef, cmds: seq<Cmd>, v: Value, scope: map<string, StateRef>, h: Heap): (o: Outcome)
    requires RefsBelow(cmds, scope, |h.cells|)
    ensures |o.heap.cells| == |h.cells|
    ensures h.log <= o.heap.log
    ensures forall k :: |h.log| <= k < |o.heap.log| ==> o.heap.log[k].node == node
    decreases |cmds|
  {
    if cmds == [] then Continue(v, h)
    else
      RefsBelowSuffix(cmds, scope, |h.cells|, 0);
      RefsBelowSuffix(cmds, scope, |h.cells|, 1);
      var o1 := Step(node, cmds[0], v, scope, h);
      if o1.Stop? then o1 else Exec(node, cmds[1..], o1.value, scope, o1.heap)
  }

  /** Running `a` and then `b` is running `a + b`: the pipeline composes, and a
      stop in `a` means `b` never runs. */
  lemma {:induction false} ExecAppend(node: NodeRef, a: seq<Cmd>, b: seq<Cmd>, v: Value, scope: map<string, StateRef>, h: Heap)
    requires RefsBelow(a, scope, |h.cells|) && RefsBelow(b, scope, |h.cells|)
    ensures RefsBelow(a + b, scope, |h.cells|)
    ensures var o := Exec(node, a, v, scope, h);
      Exec(node, a + b, v, scope, h) ==
        if o.Stop? then o else Exec(node, b, o.value, scope, o.heap)
  {
    assert forall i :: 0 <= i < |a + b| ==> (a + b)[i] == if i < |a| then a[i] else b[i - |a|];
    if a != [] {
      RefsBelowSuffix(a, scope, |h.cells|, 0);
      RefsBelowSuffix(a, scope, |h.cells|, 1);
      var o1 := Step(node, a[0], v, scope, h);
      assert (a + b)[0] == a[0];
      assert (a + b)[1..] == a[1..] + b;
      if o1.Continue? {
        ExecAppend(node, a[1..], b, o1.value, scope, o1.heap);
      }
    } else {
      assert a + b == b;
    }
  }

  /** A sequence stops only at a command whose kind matches the reason. */
  lemma {:induction false} StopHasCause(node: NodeRef, cmds: seq<Cmd>, v: Value, scope: map<string, StateRef>, h: Heap)
    requires RefsBelow(cmds, scope, |h.cells|)
    ensures var o := Exec(node, cmds, v, scope, h);
      o.Stop? ==> exists i :: 0 <= i < |cmds| && HaltsWith(cmds[i], o.reason)
  {
    if cmds != [] {
      RefsBelowSuffix(cmds, scope, |h.cells|, 0);
      RefsBelowSuffix(cmds, scope, |h.cells|, 1);
      var o1 := Step(node, cmds[0], v, scope, h);
      if o1.Continue? {
        StopHasCause(node, cmds[1..], o1.value, scope, o1.heap);
        var o := Exec(node, cmds, v, scope, h);
        if o.Stop? {
          var i :| 0 <= i < |cmds| - 1 && HaltsWith(cmds[1..][i], o.reason);
          assert HaltsWith(cmds[i + 1], o.reason);
        }
      }
    }
  }

  /** `run`, `emit` and `barrier` never stop the sequence, never change the
      value and never write a cell. */
  lemma {:induction false} PassThrough(node: NodeRef, cmds: seq<Cmd>, v: Value, scope: map<string, StateRef>, h: Heap)
    requires RefsBelow(cmds, scope, |h.cells|)
    requires forall i :: 0 <= i < |cmds| ==> cmds[i].Run? || cmds[i].Emit? || cmds[i].Barrier?
    ensures var o := Exec(node, cmds, v, scope, h);
      o.Continue? && o.value == v && o.heap.cells == h.cells
  {
    if cmds != [] {
      RefsBelowSuffix(cmds, scope, |h.cells|, 0);
      RefsBelowSuffix(cmds, scope, |h.cells|, 1);
      var o1 := Step(node, cmds[0], v, scope, h);
      PassThrough(node, cmds[1..], v, scope, o1.heap);
    }
  }

  /** Without a `compute`, a sequence that runs to the end forwards the very
      value it received. */
  lemma {:induction false} OnlyComputeTransforms(node: NodeRef, cmds: seq<Cmd>, v: Value, scope: map<string, StateRef>, h: Heap)
    requires RefsBelow(cmds, scope, |h.cells|)
    requires forall i :: 0 <= i < |cmds| ==> !cmds[i].Compute?
    ensures var o := Exec(node, cmds, v, scope, h);
      o.Continue? ==> o.value == v
  {
    if cmds != [] {
      RefsBelowSuffix(cmds, scope, |h.cells|, 0);
      RefsBelowSuffix(cmds, scope, |h.cells|, 1);
      var o1 := Step(node, cmds[0], v, scope, h);
      if o1.Continue? {
        OnlyComputeTransforms(node, cmds[1..], v, scope, o1.heap);
      }
    }
  }

  /** Some `update` in the sequence writes cell `id`. */
  predicate Writes(cmds: seq<Cmd>, id: ID)
  {
    exists i :: 0 <= i < |cmds| && cmds[i].Update? && cmds[i].store.id == id
  }

  /** A cell that no `update` of the sequence names keeps its contents. */
  lemma {:induction false} ExecFrame(node: NodeRef, cmds: seq<Cmd>, v: Value, scope: map<string, StateRef>, h: Heap, id: ID)
    requires RefsBelow(cmds, scope, |h.cells|)
    requires id < |h.cells| && !Writes(cmds, id)
    ensures Exec(node, cmds, v, scope, h).heap.cells[id] == h.cells[id]
  {
    if cmds != [] {
      RefsBelowSuffix(cmds, scope, |h.cells|, 0);
      RefsBelowSuffix(cmds, scope, |h.cells|, 1);
      var o1 := Step(node, cmds[0], v, scope, h);
      if o1.Continue? {
        ExecFrame(node, cmds[1..], o1.value, scope, o1.heap, id);
      }
    }
  }
}
