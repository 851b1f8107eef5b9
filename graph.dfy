/** The graph data model: state cells, the six commands a node's sequence is
    made of, graph nodes, and the `graphite` indirection through which stores,
    events and effects expose their node. */
module Graphs {
  import opened Values

  /** Identities. effector uses opaque strings; here they are handed out by
      counters, which keeps them distinct the same way. */
  type ID = nat

  /** Nodes live in an arena and refer to one another by position. */
  type NodeRef = nat

  datatype Kind = Store | Event | Effect | Domain

  /** The `kind` tag of a unit. */
  function KindName(k: Kind): (name: string)
    ensures name in {"store", "event", "effect", "domain"}
  {
    match k
    case Store => "store"
    case Event => "event"
    case Effect => "effect"
    case Domain => "domain"
  }

  /** A state cell: its identity is fixed when it is made, its contents change. */
  class StateRef {
    const id: ID
    var current: Value

    constructor (id: ID, current: Value)
      ensures this.id == id && this.current == current
    {
      this.id := id;
      this.current := current;
    }

    /** Overwrite the contents; the identity stays as it was (it is a constant). */
    method Write(v: Value)
      modifies this
      ensures current == v
    {
      current := v;
    }
  }

  /** A command: one of exactly six variants, each with its own identity and
      its own payload. `Filter`'s callback yields a boolean; `Run`'s and
      `Compute`'s yield a value. */
  datatype Cmd =
    | Update(id: ID, store: StateRef)
    | Run(id: ID, fn: (Value, Scope) -> Value)
    | Filter(id: ID, pred: (Value, Scope) -> bool)
    | Emit(id: ID, fullName: string)
    | Compute(id: ID, fn: (Value, Scope) -> Value)
    | Barrier(id: ID, barrierID: ID)
  {
    /** The `type` tag; it names the variant, so it tells which payload is there. */
    function Type(): (t: string)
      ensures t == "update" <==> Update?
      ensures t == "run" <==> Run?
      ensures t == "filter" <==> Filter?
      ensures t == "emit" <==> Emit?
      ensures t == "compute" <==> Compute?
      ensures t == "barrier" <==> Barrier?
    {
      match this
      case Update(_, _) => "update"
      case Run(_, _) => "run"
      case Filter(_, _) => "filter"
      case Emit(_, _) => "emit"
      case Compute(_, _) => "compute"
      case Barrier(_, _) => "barrier"
    }

    /** The `group` tag, the same for every command. */
    function Group(): string
    {
      "cmd"
    }
  }

  /** The cell an `update` names lies below `n` in the cell arena. */
  predicate CmdRefBelow(c: Cmd, n: nat)
  {
    c.Update? ==> c.store.id < n
  }

  /** Every cell a scope closes over lies below `n`. */
  predicate ScopeBelow(scope: map<string, StateRef>, n: nat)
  {
    forall k :: k in scope ==> scope[k].id < n
  }

  /** Every cell a node's commands or scope refer to lies below `n`. */
  predicate RefsBelow(cmds: seq<Cmd>, scope: map<string, StateRef>, n: nat)
  {
    (forall i :: 0 <= i < |cmds| ==> CmdRefBelow(cmds[i], n)) && ScopeBelow(scope, n)
  }

  /** A graph node. `from` records parents and is not used for traversal;
      `next` is the ordered list of children; `cmds` is the node's command
      sequence (`seq` in effector, a reserved word here); `scope` holds the
      cells the commands close over; `meta` is diagnostic only. */
  datatype Graph = Graph(
    from: seq<NodeRef>,
    next: seq<NodeRef>,
    cmds: seq<Cmd>,
    scope: map<string, StateRef>,
    meta: map<string, string>)

  /** Either a node itself or a unit whose `graphite` field is the node. */
  datatype Graphite =
    | Bare(graph: NodeRef)
    | Unit(graphite: NodeRef, kind: Kind)

  /** The node behind a graphite: at most one indirection. */
  function Resolve(g: Graphite): NodeRef
  {
    match g
    case Bare(n) => n
    case Unit(n, _) => n
  }
}
