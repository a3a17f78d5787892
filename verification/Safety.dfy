/** The guarantees of docs/architecture.md, for every run of the cluster. */
module Safety {
  import opened RaftTypes
  import opened LogOps
  import opened Cluster
  import opened Invariants
  import opened Evolution
  import opened CommitSteps
  import opened ClusterProof

  /** A run: states joined by steps, from a fresh cluster. */
  ghost predicate IsRun(run: seq<State>, steps: seq<Step>) {
    && |run| == |steps| + 1
    && Init(run[0])
    && forall i | 0 <= i < |steps| :: Enabled(run[i], steps[i]) && run[i + 1] == Exec(run[i], steps[i])
  }

  lemma {:induction false} RunInv(run: seq<State>, steps: seq<Step>, i: nat)
    requires IsRun(run, steps) && i < |run|
    ensures Inv(run[i])
  {
    if i == 0 {
      InitHolds(run[0]);
    } else {
      RunInv(run, steps, i - 1);
      StepKeeps(run[i - 1], steps[i - 1]);
    }
  }

  lemma RunStep(run: seq<State>, steps: seq<Step>, i: nat)
    requires IsRun(run, steps) && i < |steps|
    ensures Evolves(run[i], run[i + 1])
  {
    RunInv(run, steps, i);
    StepKeeps(run[i], steps[i]);
  }

  lemma EvolvesSelf(c: State)
    ensures Evolves(c, c)
  {
  }

  /** Each state evolves into the next. */
  ghost predicate Evolving(run: seq<State>) {
    forall i | 0 <= i < |run| - 1 :: Evolves(run[i], run[i + 1])
  }

  lemma {:induction false} EvolvesAlong(run: seq<State>, i: nat, j: nat)
    requires Evolving(run) && i <= j < |run|
    ensures Evolves(run[i], run[j])
    decreases j - i
  {
    if i == j {
      EvolvesSelf(run[i]);
    } else {
      EvolvesAlong(run, i, j - 1);
      EvolvesTransitively(run[i], run[j - 1], run[j]);
    }
  }

  lemma RunEvolves(run: seq<State>, steps: seq<Step>, i: nat, j: nat)
    requires IsRun(run, steps) && i <= j < |run|
    ensures Evolves(run[i], run[j])
  {
    forall k | 0 <= k < |run| - 1 ensures Evolves(run[k], run[k + 1]) {
      RunStep(run, steps, k);
    }
    EvolvesAlong(run, i, j);
  }

  // ---- Election safety ----

  lemma LeaderRecorded(run: seq<State>, steps: seq<Step>, i: nat, k: nat, p: NodeId)
    requires IsRun(run, steps) && i <= k < |run|
    requires p in run[i].nodes && run[i].nodes[p].role.Leader?
    ensures run[i].nodes[p].term in run[k].h.leaders && run[k].h.leaders[run[i].nodes[p].term] == p
  {
    RunInv(run, steps, i);
    RunEvolves(run, steps, i, k);
    assert Configured(run[i].nodes, p) && LeadsTerm(run[i].h, run[i].nodes[p]);
  }

  /** At most one node ever leads a term. */
  lemma ElectionSafety(run: seq<State>, steps: seq<Step>, i: nat, p: NodeId, j: nat, q: NodeId)
    requires IsRun(run, steps) && i < |run| && j < |run|
    requires p in run[i].nodes && run[i].nodes[p].role.Leader?
    requires q in run[j].nodes && run[j].nodes[q].role.Leader?
    requires run[i].nodes[p].term == run[j].nodes[q].term
    ensures p == q
  {
    var k := Max(i, j);
    LeaderRecorded(run, steps, i, k, p);
    LeaderRecorded(run, steps, j, k, q);
  }

  // ---- Log matching ----

  lemma LogAnchored(run: seq<State>, steps: seq<Step>, i: nat, k: nat, p: NodeId)
    requires IsRun(run, steps) && i <= k < |run| && p in run[i].nodes
    ensures Anchored(run[k].h.logs, run[i].nodes[p].log)
  {
    RunInv(run, steps, i);
    RunEvolves(run, steps, i, k);
    AnchoredStays(run[i].h, run[k].h, run[i].nodes[p].log);
  }

  /** Two logs, of any nodes at any times, that hold the same term at an index agree up to it. */
  lemma LogMatchingHolds(run: seq<State>, steps: seq<Step>, i: nat, p: NodeId, j: nat, q: NodeId)
    requires IsRun(run, steps) && i < |run| && j < |run|
    requires p in run[i].nodes && q in run[j].nodes
    ensures LogMatching(run[i].nodes[p].log, run[j].nodes[q].log)
  {
    var k := Max(i, j);
    LogAnchored(run, steps, i, k, p);
    LogAnchored(run, steps, j, k, q);
    AnchoredLogsMatch(run[k].h, run[i].nodes[p].log, run[j].nodes[q].log);
  }

  // ---- Leader append-only ----

  /** While a node leads a term its log only grows, and only by entries of that term. */
  lemma LeaderAppendOnly(run: seq<State>, steps: seq<Step>, i: nat, j: nat, p: NodeId)
    requires IsRun(run, steps) && i <= j < |run| && p in run[i].nodes && p in run[j].nodes
    requires run[i].nodes[p].role.Leader? && run[j].nodes[p].role.Leader?
    requires run[i].nodes[p].term == run[j].nodes[p].term
    ensures LogGrows(run[i].nodes[p].term, run[i].nodes[p].log, run[j].nodes[p].log)
  {
    RunInv(run, steps, i);
    RunInv(run, steps, j);
    RunEvolves(run, steps, i, j);
    assert LeadsTerm(run[i].h, run[i].nodes[p]) && LeadsTerm(run[j].h, run[j].nodes[p]);
  }

  // ---- Leader completeness ----

  /** What the leader of term t has committed is in the log of a later term, whenever that log was first seen. */
  lemma LaterLogHasCommitted(nodes: Nodes, h: History, h': History, t: nat, later: nat)
    requires CommitsOk(nodes, h') && LogsGrow(h, h')
    requires t in h'.committed && t < later && later in h.logs
    ensures t in h'.logs && Agree(h.logs[later], h'.logs[t], h'.committed[t])
  {
    var m := h'.committed[t];
    assert CommitRecorded(nodes.Keys, h', t);
    LeaderHasCommitted(nodes, h', t, later);
    var g, g' := h.logs[later], h'.logs[later];
    assert LogGrows(later, g, g');
    AgreeAt(g', h'.logs[t], m, m - 1);
    assert m <= |g|;
    assert g[..m] == g'[..m];
  }

  lemma RunCommitsOk(run: seq<State>, steps: seq<Step>, i: nat)
    requires IsRun(run, steps) && i < |run|
    ensures CommitsOk(run[i].nodes, run[i].h)
  {
    RunInv(run, steps, i);
    InvCommitsOk(run[i]);
  }

  lemma LeaderLog(run: seq<State>, steps: seq<Step>, i: nat, p: NodeId)
    requires IsRun(run, steps) && i < |run| && p in run[i].nodes && run[i].nodes[p].role.Leader?
    ensures run[i].nodes[p].term in run[i].h.logs && run[i].h.logs[run[i].nodes[p].term] == run[i].nodes[p].log
  {
    RunInv(run, steps, i);
    assert LeadsTerm(run[i].h, run[i].nodes[p]);
  }

  /** The commit of a node is the commit of some leader whose term the node has reached. */
  lemma CommitHasLeader(run: seq<State>, steps: seq<Step>, i: nat, k: nat, p: NodeId, n: nat) returns (t: nat)
    requires IsRun(run, steps) && i <= k < |run| && p in run[i].nodes
    requires 0 < n <= run[i].nodes[p].commit
    ensures t <= run[i].nodes[p].term && t in run[k].h.committed && t in run[k].h.logs && n <= run[k].h.committed[t]
    ensures Agree(run[i].nodes[p].log, run[k].h.logs[t], n)
  {
    RunInv(run, steps, i);
    RunEvolves(run, steps, i, k);
    var s := run[i].nodes[p];
    assert CommittedBy(run[i].h, s.log[..s.commit], s.term);
    t :| CommittedIn(run[i].h, s.log[..s.commit], s.term, t);
    AgreeGrows(s.log, run[i].h.logs[t], run[k].h.logs[t], s.commit);
    AgreeShorter(s.log, run[k].h.logs[t], s.commit, n);
  }

  /**
    Whatever any node has committed is in the log of every leader of a later
    term, at every moment of that leader's reign, even one that came to lead
    before the commit, and of every later leader of the same term.
   */
  lemma LeaderCompleteness(run: seq<State>, steps: seq<Step>, i: nat, p: NodeId, n: nat, j: nat, q: NodeId)
    requires IsRun(run, steps) && i < |run| && j < |run|
    requires p in run[i].nodes && n <= run[i].nodes[p].commit
    requires q in run[j].nodes && run[j].nodes[q].role.Leader?
    requires
      || run[i].nodes[p].term < run[j].nodes[q].term
      || (run[i].nodes[p].term == run[j].nodes[q].term && i <= j)
    ensures Agree(run[j].nodes[q].log, run[i].nodes[p].log, n)
  {
    IndexOrder(run, steps, i, p);
    LeaderLog(run, steps, j, q);
    if n > 0 {
      var k := Max(i, j);
      RunCommitsOk(run, steps, k);
      RunEvolves(run, steps, j, k);
      var t := CommitHasLeader(run, steps, i, k, p, n);
      if t == run[j].nodes[q].term { return; }
      LaterLogHasCommitted(run[k].nodes, run[j].h, run[k].h, t, run[j].nodes[q].term);
      AgreeShorter(run[j].nodes[q].log, run[k].h.logs[t], run[k].h.committed[t], n);
    }
  }

  // ---- State machine safety ----

  /** What a node has committed is part of the committed log. */
  lemma NodeInClog(nodes: Nodes, h: History, p: NodeId)
    requires CommitInv(nodes, h) && ClogInv(h) && p in nodes
    ensures Agree(nodes[p].log, h.clog, nodes[p].commit)
  {
    var s := nodes[p];
    assert CommittedBy(h, s.log[..s.commit], s.term);
    if s.commit > 0 {
      var t :| CommittedIn(h, s.log[..s.commit], s.term, t);
      assert Agree(h.logs[t], h.clog, h.committed[t]);
      AgreeShorter(h.logs[t], h.clog, h.committed[t], s.commit);
    }
  }

  /** What a node has committed is, from then on, part of the one committed log. */
  lemma CommittedInClog(run: seq<State>, steps: seq<Step>, i: nat, k: nat, p: NodeId, n: nat)
    requires IsRun(run, steps) && i <= k < |run| && p in run[i].nodes && n <= run[i].nodes[p].commit
    ensures Agree(run[i].nodes[p].log, run[k].h.clog, n)
  {
    RunInv(run, steps, i);
    RunEvolves(run, steps, i, k);
    NodeInClog(run[i].nodes, run[i].h, p);
    AgreeGrows(run[i].nodes[p].log, run[i].h.clog, run[k].h.clog, run[i].nodes[p].commit);
    AgreeShorter(run[i].nodes[p].log, run[k].h.clog, run[i].nodes[p].commit, n);
  }

  /** The committed log only grows. */
  lemma ClogGrows(run: seq<State>, steps: seq<Step>, i: nat, j: nat)
    requires IsRun(run, steps) && i <= j < |run|
    ensures run[i].h.clog <= run[j].h.clog
  {
    RunEvolves(run, steps, i, j);
  }

  /** No two nodes, at any times, restarts and snapshots included, have applied different entries at an index. */
  lemma StateMachineSafety(run: seq<State>, steps: seq<Step>, i: nat, p: NodeId, j: nat, q: NodeId, n: nat)
    requires IsRun(run, steps) && i < |run| && j < |run| && p in run[i].nodes && q in run[j].nodes
    requires n <= run[i].nodes[p].applied && n <= run[j].nodes[q].applied
    ensures Agree(run[i].nodes[p].log, run[j].nodes[q].log, n)
  {
    var k := Max(i, j);
    RunInv(run, steps, i);
    RunInv(run, steps, j);
    CommittedInClog(run, steps, i, k, p, n);
    CommittedInClog(run, steps, j, k, q, n);
  }

  /** In every reachable state the snapshot, applied, commit and last index are in that order. */
  lemma IndexOrder(run: seq<State>, steps: seq<Step>, i: nat, p: NodeId)
    requires IsRun(run, steps) && i < |run| && p in run[i].nodes
    ensures var s := run[i].nodes[p]; s.base <= s.applied <= s.commit <= |s.log|
  {
    RunInv(run, steps, i);
  }
}
