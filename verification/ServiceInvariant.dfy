/** What every event keeps: stores converge to the committed log, and operations match it. */
module ServiceInvariant {
  import opened RaftTypes
  import opened LogOps
  import opened NodeModel
  import opened Cluster
  import opened Invariants
  import opened ClusterProof
  import opened KvStore
  import opened Service

  // ---- Invariant ----

  ghost predicate StoreOk(s: NodeState, kv: Kv, clog: Log, ahead: nat) {
    && Converging(kv, clog, s.applied, ahead)
    && (s.snapshot.Some? ==> Converging(s.snapshot.value, clog, s.base, ahead))
    && (s.snapshot.None? ==> s.base == 0)
  }

  /** The proposed entry, and why it cannot be one that was committed before the operation began. */
  ghost predicate ProposalOk(h: History, start: nat, term: nat, index: nat, command: Command) {
    && term in h.logs && 0 < index <= |h.logs[term]| && h.logs[term][index - 1] == LogEntry(term, index, command)
    && (start >= index ==> index <= |h.clog| && h.clog[index - 1].term != term)
  }

  /** A value read after `at` entries is the one its key has there, unless a later entry up to `start` writes it. */
  ghost predicate ValueOk(clog: Log, read: ReadResult, start: nat) {
    && read.at <= |clog| && start <= |clog|
    && (WrittenIn(clog, read.at, start, read.key) || read.value == Get(Fold(clog[..read.at]), read.key))
  }

  ghost predicate OpOk(w: World, o: Op) {
    match o
    case Begun(p, start) => p in w.ahead && w.ahead[p] <= start <= |w.c.h.clog|
    case Proposed(p, start, term, index, command) =>
      p in w.ahead && w.ahead[p] <= start <= |w.c.h.clog| && ProposalOk(w.c.h, start, term, index, command)
    case Done(p, start, term, index, command, end, confirmed, read) =>
      && 0 < index <= end <= |w.c.h.clog| && start <= end && ProposalOk(w.c.h, start, term, index, command)
      && (confirmed <==> w.c.h.clog[index - 1].term == term)
      && (confirmed ==> start < index && w.c.h.clog[index - 1] == LogEntry(term, index, command))
      && (read.Some? ==> index <= read.value.at <= end && ValueOk(w.c.h.clog, read.value, start))
    case Lost => true
  }

  ghost predicate WorldInv(w: World) {
    && Inv(w.c)
    && w.kv.Keys == w.c.nodes.Keys && w.ahead.Keys == w.c.nodes.Keys
    && (forall p | p in w.c.nodes :: StoreOk(w.c.nodes[p], w.kv[p], w.c.h.clog, w.ahead[p]))
    && (forall op | op in w.ops :: OpOk(w, w.ops[op]))
  }

  lemma InitialHolds(w: World)
    requires Initial(w)
    ensures WorldInv(w)
  {
    InitHolds(w.c);
  }

  // ---- Stores ----

  lemma StoreStays(s: NodeState, s': NodeState, kv: Kv, clog: Log, clog': Log, ahead: nat)
    requires StoreOk(s, kv, clog, ahead) && clog <= clog'
    requires s'.applied == s.applied && s'.base == s.base && s'.snapshot == s.snapshot
    ensures StoreOk(s', kv, clog', ahead)
  {
    ConvergingGrows(kv, clog, clog', s.applied, ahead, ahead);
    if s.snapshot.Some? { ConvergingGrows(s.snapshot.value, clog, clog', s.base, ahead, ahead); }
  }

  /** Outside Apply, TakeSnapshot and restart, what a store depends on does not move. */
  lemma StepLeavesStore(c: State, step: Step, p: NodeId)
    requires Enabled(c, step) && p in c.nodes
    requires step.Apply? || step.TakeSnapshot? || step.CrashAndRestart? ==> step.p != p
    ensures p in Exec(c, step).nodes
    ensures var s, s' := c.nodes[p], Exec(c, step).nodes[p];
      s'.applied == s.applied && s'.base == s.base && s'.snapshot == s.snapshot
  {
    StepIsOperation(c, step);
  }

  lemma StoreApplies(s: NodeState, kv: Kv, clog: Log, ahead: nat)
    requires StoreOk(s, kv, clog, ahead) && CanApply(s) && Agree(s.log, clog, s.commit)
    ensures StoreOk(MarkApplied(s), ApplyCommand(kv, s.log[s.applied].command), clog, ahead)
  {
    AgreeAt(s.log, clog, s.commit, s.applied);
    ConvergingApply(kv, clog, s.applied, ahead);
  }

  lemma StoreSnapshot(s: NodeState, kv: Kv, clog: Log, ahead: nat)
    requires StoreOk(s, kv, clog, ahead)
    ensures StoreOk(Compact(s, kv), kv, clog, ahead)
  {
  }

  lemma StoreRestarts(s: NodeState, kv: Kv, clog: Log, ahead: nat, seen: nat, seenKv: Kv)
    requires StoreOk(s, kv, clog, ahead) && Converging(seenKv, clog, seen, ahead)
    ensures StoreOk(Restart(s), Reloaded(s, seenKv), clog, Max(ahead, seen))
  {
    ConvergingFromStart(seenKv, clog, seen, ahead);
    if s.snapshot.Some? {
      ConvergingGrows(s.snapshot.value, clog, clog, s.base, ahead, Max(ahead, seen));
    }
  }
}
