/**
  Clients on top of the cluster: every node applies its committed entries to a
  key-value store, and reads and writes are proposals that wait for the commit
  index (raft/proposal.go, client/http.go, cmd/node/main.go).
 */
module Service {
  import opened RaftTypes
  import opened LogOps
  import opened NodeModel
  import opened Cluster
  import opened KvStore

  /** What a read returned, and how many entries the store had applied. */
  datatype ReadResult = ReadResult(key: string, value: Option<string>, at: nat)

  /**
    A client operation at a node. `start` and `end` are the lengths of the
    committed log when it began and when it was answered. A read proposes a
    no-op. `confirmed` records whether, when the operation was answered, the
    node's log still held the proposed entry's term at its index.
   */
  datatype Op =
    | Begun(node: NodeId, start: nat)
    | Proposed(node: NodeId, start: nat, term: nat, index: nat, command: Command)
    | Done(node: NodeId, start: nat, term: nat, index: nat, command: Command,
           end: nat, confirmed: bool, read: Option<ReadResult>)
    | Lost

  /** `ahead[p]`: how many entries p's store had seen when p last restarted. */
  datatype World = World(c: State, kv: map<NodeId, Kv>, ahead: map<NodeId, nat>, ops: map<nat, Op>)

  datatype Event =
    | ClusterStep(step: Step)
    | Crash(p: NodeId, midApply: bool)
    | BeginOp(op: nat, p: NodeId)
    | ProposeOp(op: nat, command: Command)
    | AnswerWrite(op: nat)
    | AnswerRead(op: nat, key: string)

  predicate Initial(w: World) {
    && Init(w.c)
    && w.kv.Keys == w.c.nodes.Keys && w.ahead.Keys == w.c.nodes.Keys
    && (forall p | p in w.c.nodes :: w.kv[p] == map[] && w.ahead[p] == 0)
    && w.ops == map[]
  }

  /** The entry at the proposed index is still of the proposed term. */
  predicate StillThere(s: NodeState, op: Op)
    requires op.Proposed?
  {
    TermIn(s.log, op.index) == op.term
  }

  predicate Possible(w: World, e: Event) {
    && w.kv.Keys == w.c.nodes.Keys && w.ahead.Keys == w.c.nodes.Keys
    && match e
       case ClusterStep(step) =>
         // a snapshot is always one of the node's own store
         Enabled(w.c, step) && !step.CrashAndRestart? && (step.TakeSnapshot? ==> step.snapshot == w.kv[step.p])
       case Crash(p, midApply) => p in w.c.nodes && (midApply ==> CanApply(w.c.nodes[p]))
       case BeginOp(op, p) => op !in w.ops && p in w.c.nodes
       case ProposeOp(op, command) =>
         op in w.ops && w.ops[op].Begun? && Enabled(w.c, Propose(w.ops[op].node, command))
       case AnswerWrite(op) =>
         && op in w.ops && w.ops[op].Proposed? && w.ops[op].node in w.c.nodes
         && w.c.nodes[w.ops[op].node].commit >= w.ops[op].index
       case AnswerRead(op, key) =>
         && op in w.ops && w.ops[op].Proposed? && w.ops[op].node in w.c.nodes && w.ops[op].command.Noop?
         && w.c.nodes[w.ops[op].node].commit >= w.ops[op].index
         && w.c.nodes[w.ops[op].node].applied >= w.ops[op].index
  }

  /** A restart loads the stored map, and replaces it with the snapshot if there is one. */
  function Reloaded(s: NodeState, kv: Kv): Kv {
    if s.snapshot.Some? then s.snapshot.value else kv
  }

  /** The operations a restarting node was serving are lost. */
  function WithoutNode(ops: map<nat, Op>, p: NodeId): map<nat, Op> {
    map op | op in ops ::
      if (ops[op].Begun? || ops[op].Proposed?) && ops[op].node == p then Lost else ops[op]
  }

  /** How many entries the stored map of a crashing node has seen. */
  function Seen(w: World, p: NodeId, midApply: bool): nat
    requires p in w.c.nodes
  {
    w.c.nodes[p].applied + if midApply then 1 else 0
  }

  /** The stored map of a crashing node: an entry may have reached it whose index was not yet marked applied. */
  function LeftBehind(w: World, p: NodeId, midApply: bool): Kv
    requires p in w.c.nodes && p in w.kv && (midApply ==> CanApply(w.c.nodes[p]))
  {
    if midApply then ApplyCommand(w.kv[p], w.c.nodes[p].log[w.c.nodes[p].applied].command) else w.kv[p]
  }

  function CrashNode(w: World, p: NodeId, kv: Kv, seen: nat): World
    requires p in w.c.nodes && p in w.ahead
  {
    World(Exec(w.c, CrashAndRestart(p)), w.kv[p := Reloaded(w.c.nodes[p], kv)],
          w.ahead[p := Max(w.ahead[p], seen)], WithoutNode(w.ops, p))
  }

  function Answered(w: World, op: nat, read: Option<ReadResult>): World
    requires op in w.ops && w.ops[op].Proposed? && w.ops[op].node in w.c.nodes
  {
    var o := w.ops[op];
    w.(ops := w.ops[op := Done(o.node, o.start, o.term, o.index, o.command,
                               |w.c.h.clog|, StillThere(w.c.nodes[o.node], o), read)])
  }

  function Happen(w: World, e: Event): World
    requires Possible(w, e)
  {
    match e
    case ClusterStep(step) =>
      if step.Apply? then
        w.(c := Exec(w.c, step),
           kv := w.kv[step.p := ApplyCommand(w.kv[step.p], w.c.nodes[step.p].log[w.c.nodes[step.p].applied].command)])
      else w.(c := Exec(w.c, step))
    case Crash(p, midApply) => CrashNode(w, p, LeftBehind(w, p, midApply), Seen(w, p, midApply))
    case BeginOp(op, p) => w.(ops := w.ops[op := Begun(p, |w.c.h.clog|)])
    case ProposeOp(op, command) =>
      var s := w.c.nodes[w.ops[op].node];
      w.(c := Exec(w.c, Propose(w.ops[op].node, command)),
         ops := w.ops[op := Proposed(w.ops[op].node, w.ops[op].start, s.term, |s.log| + 1, command)])
    case AnswerWrite(op) => Answered(w, op, None)
    case AnswerRead(op, key) =>
      var s := w.c.nodes[w.ops[op].node];
      Answered(w, op, Some(ReadResult(key, Get(w.kv[w.ops[op].node], key), s.applied)))
  }

  // ---- Runs ----

  ghost predicate IsHistory(run: seq<World>, events: seq<Event>) {
    && |run| == |events| + 1
    && Initial(run[0])
    && forall i | 0 <= i < |events| :: Possible(run[i], events[i]) && run[i + 1] == Happen(run[i], events[i])
  }
}
