/**
  A leader has always looked at the commit rule: nothing it could commit is left
  uncommitted. So recording a success moves the commit index exactly when it
  makes up a majority.
 */
module Settling {
  import opened RaftTypes
  import opened NodeModel
  import opened Cluster
  import opened CommitSteps
  import opened Compaction
  import opened ClusterProof
  import opened Safety

  // ---- Nothing left to commit ----

  predicate Settled(s: NodeState) {
    s.role.Leader? ==> AdvanceCommit(s) == s
  }

  /** A settled leader has no committable index beyond its commit index. */
  lemma SettledExactly(s: NodeState)
    requires s.role.Leader? && s.selfMember
    ensures Settled(s) <==> forall n | s.commit < n <= |s.log| :: !Committable(s, n)
  {
    CommitFromExact(s, |s.log|);
  }

  lemma {:induction false} CommitAgain(s: NodeState, index: nat, commit: nat)
    requires commit == CommitFrom(s, index)
    ensures CommitFrom(s.(commit := commit), index) == commit
  {
    if index > s.commit && !Committable(s, index) {
      CommitAgain(s, index - 1, commit);
      assert Committable(s.(commit := commit), index) == Committable(s, index);
    }
  }

  lemma AdvanceSettles(s: NodeState)
    ensures Settled(AdvanceCommit(s))
  {
    CommitAgain(s, |s.log|, CommitFrom(s, |s.log|));
  }

  lemma {:induction false} SameRule(s: NodeState, s': NodeState, index: nat)
    requires s'.peers == s.peers && s'.selfMember == s.selfMember && s'.term == s.term && s'.log == s.log
    requires s'.matchIndex == s.matchIndex && s'.commit == s.commit && s'.base == s.base
    ensures CommitFrom(s', index) == CommitFrom(s, index)
  {
    if index > s.commit && !Committable(s, index) {
      SameRule(s, s', index - 1);
      assert Committable(s', index) == Committable(s, index);
    }
  }

  lemma OperationSettles(s: NodeState, step: Step)
    requires step.ReceiveAppend? ==> s.base <= |s.log|
    requires Settled(s) && s.base <= s.applied <= s.commit
    ensures Settled(Operation(s, step))
  {
    match step
    case WinElection(_, _, _) => AdvanceSettles(InitProgress(s.(role := Leader, leaderId := s.id)));
    case Propose(_, command) => AdvanceSettles(AppendOnly(s, command));
    case ReceiveReply(_, rec) => {
      AdvanceSettles(RecordMatch(s, rec.from, rec.req.Last()));
      SameRule(s, RecordFailure(s, rec.from), |s.log|);
    }
    case Apply(_) => SameRule(s, MarkApplied(s), |s.log|);
    case TakeSnapshot(_, snapshot) => {
      var s' := Compact(s, snapshot);
      AdvanceCommitAt(s, s'.base, s'.snapshot);
    }
    case GiveVote(_, req) => SameRule(s, s.(votedFor := req.candidate), |s.log|);
    case _ =>
  }

  lemma StepSettles(c: State, step: Step, p: NodeId)
    requires Enabled(c, step) && p in c.nodes && Settled(c.nodes[p])
    requires c.nodes[p].base <= c.nodes[p].applied <= c.nodes[p].commit
    ensures p in Exec(c, step).nodes && Settled(Exec(c, step).nodes[p])
  {
    StepIsOperation(c, step);
    if p == step.Actor() {
      OperationSettles(c.nodes[p], step);
    }
  }

  lemma NextSettled(run: seq<State>, steps: seq<Step>, i: nat, p: NodeId)
    requires IsRun(run, steps) && i < |steps| && p in run[i].nodes && Settled(run[i].nodes[p])
    ensures p in run[i + 1].nodes && Settled(run[i + 1].nodes[p])
  {
    IndexOrder(run, steps, i, p);
    StepSettles(run[i], steps[i], p);
  }

  lemma SameNodes(run: seq<State>, steps: seq<Step>, i: nat, p: NodeId)
    requires IsRun(run, steps) && i < |steps|
    ensures p in run[i + 1].nodes <==> p in run[i].nodes
  {
    StepIsOperation(run[i], steps[i]);
  }

  lemma {:induction false} SettledAlong(run: seq<State>, i: nat, p: NodeId)
    requires i < |run| && (forall k | 0 <= k < |run| :: p in run[k].nodes) && Settled(run[0].nodes[p])
    requires forall k | 0 <= k < |run| - 1 && Settled(run[k].nodes[p]) :: Settled(run[k + 1].nodes[p])
    ensures Settled(run[i].nodes[p])
  {
    if i > 0 {
      SettledAlong(run, i - 1, p);
    }
  }

  lemma {:induction false} AlwaysThere(run: seq<State>, steps: seq<Step>, i: nat, k: nat, p: NodeId)
    requires IsRun(run, steps) && i < |run| && k < |run| && p in run[i].nodes
    ensures p in run[k].nodes
    decreases if i <= k then k - i else i - k
  {
    if i < k {
      AlwaysThere(run, steps, i, k - 1, p);
      SameNodes(run, steps, k - 1, p);
    } else if k < i {
      AlwaysThere(run, steps, i, k + 1, p);
      SameNodes(run, steps, k, p);
    }
  }

  /** In every reachable state every leader has committed all that the rule lets it. */
  lemma LeaderIsSettled(run: seq<State>, steps: seq<Step>, i: nat, p: NodeId)
    requires IsRun(run, steps) && i < |run| && p in run[i].nodes
    ensures Settled(run[i].nodes[p])
  {
    forall k | 0 <= k < |run| ensures p in run[k].nodes {
      AlwaysThere(run, steps, i, k, p);
    }
    forall k | 0 <= k < |run| - 1 && Settled(run[k].nodes[p]) ensures Settled(run[k + 1].nodes[p]) {
      NextSettled(run, steps, k, p);
    }
    SettledAlong(run, i, p);
  }

  // ---- Recording a success ----

  lemma MovedHolders(peers: seq<NodeId>, matched: map<NodeId, nat>, q: NodeId, m: nat, n: nat)
    requires q in peers
    ensures var before, after := HolderSet(peers, Some(matched), n), HolderSet(peers, Some(matched[q := m]), n);
      && (q in before <==> Lookup(Some(matched), q) >= n)
      && after == if m >= n then before + {q} else before - {q}
  {
  }

  lemma HolderMoves(peers: seq<NodeId>, matched: map<NodeId, nat>, q: NodeId, m: nat, n: nat)
    requires NoDuplicates(peers) && q in peers
    ensures Holders(peers, Some(matched[q := m]), n)
      == Holders(peers, Some(matched), n)
       + (if m >= n then 1 else 0) - (if Lookup(Some(matched), q) >= n then 1 else 0)
  {
    HoldersCount(peers, Some(matched), n);
    HoldersCount(peers, Some(matched[q := m]), n);
    MovedHolders(peers, matched, q, m, n);
    OneMore(HolderSet(peers, Some(matched), n), q);
  }

  lemma OneMore(holders: set<NodeId>, q: NodeId)
    ensures |holders + {q}| == |holders| + if q in holders then 0 else 1
    ensures |holders - {q}| == |holders| - if q in holders then 1 else 0
  {
    assert q in holders ==> holders + {q} == holders && (holders - {q}) + {q} == holders;
    assert q !in holders ==> holders - {q} == holders;
  }

  /** Index n is of the leader's term, not yet known to be held by q, and one holder short of a majority. */
  predicate Tips(s: NodeState, q: NodeId, m: nat, n: nat) {
    && s.commit < n <= Min(m, |s.log|) && TermAt(s, n) == s.term && Lookup(s.matchIndex, q) < n
    && 2 + Holders(s.peers, s.matchIndex, n) == Majority(ClusterSize(s))
  }

  lemma TipsExactly(s: NodeState, q: NodeId, m: nat, n: nat)
    requires s.role.Leader? && s.selfMember && NoDuplicates(s.peers) && q in s.peers && Settled(s)
    requires KnowsPeer(s, q) && s.matchIndex.Some? && s.commit < n <= |s.log|
    ensures Committable(RecordMatch(s, q, m), n) <==> Tips(s, q, m, n)
  {
    SettledExactly(s);
    assert !Committable(s, n);
    HolderMoves(s.peers, s.matchIndex.value, q, m, n);
  }

  /**
    Recording that a peer holds the log through m, whatever the term in which
    it said so, moves the commit index of a settled leader if and only if some
    index up to m of the leader's own term was one holder short of a majority
    and not yet counted for that peer; it then moves to the last such index.
   */
  lemma RecordingMovesCommitExactly(s: NodeState, q: NodeId, m: nat)
    requires s.role.Leader? && s.selfMember && NoDuplicates(s.peers) && q in s.peers && Settled(s)
    requires KnowsPeer(s, q) && s.matchIndex.Some?
    ensures var commit := RecordSuccess(s, q, m).commit;
      && (commit > s.commit <==> exists n: nat :: Tips(s, q, m, n))
      && (commit > s.commit ==> Tips(s, q, m, commit) && forall n: nat | Tips(s, q, m, n) :: n <= commit)
  {
    var s1 := RecordMatch(s, q, m);
    CommitFromExact(s1, |s.log|);
    forall n: nat | s.commit < n <= |s.log| ensures Committable(s1, n) <==> Tips(s, q, m, n) {
      TipsExactly(s, q, m, n);
    }
  }
}
