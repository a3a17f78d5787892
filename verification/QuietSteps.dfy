/**
  Steps that leave every log, acknowledgement and commitment as it was: losing
  a term, standing for election, voting, applying, taking a snapshot,
  restarting, recording progress, refusing an append.
 */
module QuietSteps {
  import opened RaftTypes
  import opened LogOps
  import opened NodeModel
  import opened Cluster
  import opened Invariants
  import opened Evolution

  ghost predicate Quiet(s: NodeState, s': NodeState) {
    && s'.id == s.id && s'.peers == s.peers && s'.selfMember == s.selfMember
    && s'.log == s.log && s.term <= s'.term
    && s'.base <= s'.applied <= s'.commit
    && (s'.role.Leader? ==> s.role.Leader? && s'.term == s.term)
    && (s'.role.Candidate? && s'.term == s.term ==> s.role.Candidate?)
  }

  ghost predicate SameRecord(h: History, h': History) {
    h'.leaders == h.leaders && h'.logs == h.logs && h'.acked == h.acked
  }

  ghost predicate QuietStep(c: State, c': State, p: NodeId) {
    && p in c.nodes && p in c'.nodes
    && c'.nodes == c.nodes[p := c'.nodes[p]]
    && Quiet(c.nodes[p], c'.nodes[p])
    && SameRecord(c.h, c'.h) && VotesGrow(c.h, c'.h) && CommitsGrow(c.h, c'.h)
  }

  /** Nothing new is committed; a restart forgets how far the node had committed. */
  ghost predicate NothingCommitted(c: State, c': State, p: NodeId)
    requires p in c.nodes && p in c'.nodes
  {
    c'.nodes[p].commit <= c.nodes[p].commit && c'.h.committed == c.h.committed && c'.h.clog == c.h.clog
  }

  lemma QuietEvolves(c: State, c': State, p: NodeId)
    requires QuietStep(c, c', p)
    ensures Evolves(c, c')
  {
  }

  lemma QuietNodes(c: State, c': State, p: NodeId)
    requires QuietStep(c, c', p) && NodesOk(c.nodes)
    ensures NodesOk(c'.nodes)
  {
    forall q | q in c'.nodes ensures Configured(c'.nodes, q) {
      assert Configured(c.nodes, q);
    }
  }

  lemma QuietLeaders(c: State, c': State, p: NodeId)
    requires QuietStep(c, c', p) && LeaderInv(c.nodes, c.h)
    ensures LeaderInv(c'.nodes, c'.h)
  {
    forall t | t in c'.h.leaders ensures LeaderOfTerm(c'.nodes, c'.h, t) {
      assert LeaderOfTerm(c.nodes, c.h, t);
      ElectedStays(c.nodes.Keys, c.h, c'.h, t, c.h.leaders[t]);
    }
  }

  lemma QuietLogs(c: State, c': State, p: NodeId)
    requires QuietStep(c, c', p) && LogInv(c.nodes, c.h)
    ensures LogInv(c'.nodes, c'.h)
  {
  }

  lemma QuietAcks(c: State, c': State, p: NodeId)
    requires QuietStep(c, c', p) && AckInv(c.nodes, c.h)
    ensures AckInv(c'.nodes, c'.h)
  {
    forall q, t | (q, t) in c'.h.acked ensures AckRecorded(c'.nodes, c'.h, q, t) {
      assert AckRecorded(c.nodes, c.h, q, t);
    }
  }

  lemma QuietNet(c: State, c': State, p: NodeId)
    requires QuietStep(c, c', p) && NetInv(c.nodes, c.net, c.h)
    requires c'.net.appends == c.net.appends
    requires forall r | r in c'.net.appendReps && r.reply.success :: r in c.net.appendReps
    ensures NetInv(c'.nodes, c'.net, c'.h)
  {
    forall r: AppendRequest | RequestOk(c.h, r) ensures RequestOk(c'.h, r) {
      RequestStays(c.h, c'.h, r);
    }
  }

  lemma QuietLeadersCarry(c: State, c': State, p: NodeId)
    requires QuietStep(c, c', p) && LeadersCarry(c.nodes, c.h)
    ensures LeadersCarry(c'.nodes, c'.h)
  {
    forall t: nat, later: nat, m: nat | t < later && later in c'.h.logs && OwnEntry(c'.h, t, m)
      ensures Carries(c'.nodes, c'.h, c'.h.logs[later], t, m)
    {
      assert OwnEntry(c.h, t, m);
      CarriesStays(c, c', c.h.logs[later], t, m);
    }
  }

  lemma QuietNodesCarry(c: State, c': State, p: NodeId)
    requires QuietStep(c, c', p) && NodesCarry(c.nodes, c.h)
    ensures NodesCarry(c'.nodes, c'.h)
  {
    forall q: NodeId, t: nat, m: nat | q in c'.nodes && OwnEntry(c'.h, t, m) && Ack(c'.h, q, t) >= m
      ensures Carries(c'.nodes, c'.h, c'.nodes[q].log, t, m)
    {
      assert OwnEntry(c.h, t, m) && Ack(c.h, q, t) >= m;
      CarriesStays(c, c', c.nodes[q].log, t, m);
    }
  }

  lemma CommittedByShorter(h: History, log: Log, k: nat, m: nat, term: nat)
    requires k <= m <= |log| && CommittedBy(h, log[..m], term)
    ensures CommittedBy(h, log[..k], term)
  {
    if k > 0 {
      var t :| CommittedIn(h, log[..m], term, t);
      assert log[..k] == log[..m][..k];
      AgreeShorter(log[..m], h.logs[t], m, k);
      assert CommittedIn(h, log[..k], term, t);
    }
  }

  lemma QuietCommits(c: State, c': State, p: NodeId)
    requires QuietStep(c, c', p) && NothingCommitted(c, c', p) && CommitInv(c.nodes, c.h)
    ensures CommitInv(c'.nodes, c'.h)
  {
    forall t | t in c'.h.committed ensures CommitRecorded(c'.nodes.Keys, c'.h, t) {
      assert CommitRecorded(c.nodes.Keys, c.h, t);
      AckQuorumStays(c.nodes.Keys, c.nodes, c.h, c'.h, t, c.h.committed[t]);
    }
    forall q | q in c'.nodes
      ensures c'.nodes[q].commit <= |c'.nodes[q].log|
      ensures CommittedBy(c'.h, c'.nodes[q].log[..c'.nodes[q].commit], c'.nodes[q].term)
    {
      var s, s' := c.nodes[q], c'.nodes[q];
      CommittedByStays(c.h, c'.h, s.log[..s.commit], s.term, s'.term);
      CommittedByShorter(c'.h, s.log, s'.commit, s.commit, s'.term);
    }
  }

  /** A candidate that stays one, in the same term, keeps carrying what its voters acknowledged. */
  lemma CandidateStays(c: State, c': State, p: NodeId, q: NodeId)
    requires QuietStep(c, c', p) && q in c.nodes && CandidateCarries(c.nodes, c.h, q)
    requires c'.nodes[q].term == c.nodes[q].term
    requires forall v | (v, c.nodes[q].term) in c'.h.votes && c'.h.votes[(v, c.nodes[q].term)] == q ::
      (v, c.nodes[q].term) in c.h.votes && c.h.votes[(v, c.nodes[q].term)] == q
    ensures CandidateCarries(c'.nodes, c'.h, q)
  {
    forall v: NodeId, t: nat, m: nat |
      && (v, c'.nodes[q].term) in c'.h.votes && c'.h.votes[(v, c'.nodes[q].term)] == q
      && t < c'.nodes[q].term && OwnEntry(c'.h, t, m) && Ack(c'.h, v, t) >= m
      ensures Carries(c'.nodes, c'.h, c'.nodes[q].log, t, m)
    {
      assert OwnEntry(c.h, t, m) && Ack(c.h, v, t) >= m;
      CarriesStays(c, c', c.nodes[q].log, t, m);
    }
  }

  lemma QuietProgress(c: State, c': State, p: NodeId)
    requires QuietStep(c, c', p) && ProgressInv(c.nodes, c.h)
    requires ProgressOk(c'.h, c'.nodes[p])
    ensures ProgressInv(c'.nodes, c'.h)
  {
    forall q | q in c'.nodes ensures ProgressOk(c'.h, c'.nodes[q]) {
      assert q != p ==> ProgressOk(c.h, c.nodes[q]);
    }
  }

  lemma QuietClog(c: State, c': State, p: NodeId)
    requires QuietStep(c, c', p) && NothingCommitted(c, c', p) && ClogInv(c.h)
    ensures ClogInv(c'.h)
  {
  }

  /** Everything but votes, candidates, progress and commitment. */
  lemma QuietKeeps(c: State, c': State, p: NodeId)
    requires QuietStep(c, c', p) && Inv(c)
    requires CommitInv(c'.nodes, c'.h) && ClogInv(c'.h)
    requires c'.net.appends == c.net.appends
    requires forall r | r in c'.net.appendReps && r.reply.success :: r in c.net.appendReps
    requires VoteInv(c'.nodes, c'.net, c'.h)
    requires ProgressOk(c'.h, c'.nodes[p])
    requires CandidatesCarry(c'.nodes, c'.h)
    ensures Inv(c') && Evolves(c, c')
  {
    QuietEvolves(c, c', p);
    QuietNodes(c, c', p);
    QuietLeaders(c, c', p);
    QuietLogs(c, c', p);
    QuietAcks(c, c', p);
    QuietNet(c, c', p);
    QuietLeadersCarry(c, c', p);
    QuietNodesCarry(c, c', p);
    QuietProgress(c, c', p);
  }

  /** A step that commits nothing; only votes, candidates and progress are left to show. */
  lemma UncommittingKeeps(c: State, c': State, p: NodeId)
    requires QuietStep(c, c', p) && NothingCommitted(c, c', p) && Inv(c)
    requires c'.net.appends == c.net.appends
    requires forall r | r in c'.net.appendReps && r.reply.success :: r in c.net.appendReps
    requires VoteInv(c'.nodes, c'.net, c'.h)
    requires ProgressOk(c'.h, c'.nodes[p])
    requires CandidatesCarry(c'.nodes, c'.h)
    ensures Inv(c') && Evolves(c, c')
  {
    QuietCommits(c, c', p);
    QuietClog(c, c', p);
    QuietKeeps(c, c', p);
  }

  // ---- Steps that cast no vote ----

  /** The vote is kept within a term and dropped on entering a later one. */
  ghost predicate VoteKept(s: NodeState, s': NodeState) {
    && (s'.term == s.term ==> s'.votedFor == s.votedFor)
    && (s'.term > s.term ==> s'.votedFor == NONE)
    && (!s'.role.Follower? ==> s'.role == s.role && s'.term == s.term)
  }

  lemma NoVoteVotes(c: State, c': State, p: NodeId)
    requires QuietStep(c, c', p) && VoteInv(c.nodes, c.net, c.h)
    requires VoteKept(c.nodes[p], c'.nodes[p])
    requires c'.net.voteReqs == c.net.voteReqs && c'.net.voteReps == c.net.voteReps && c'.h.votes == c.h.votes
    ensures VoteInv(c'.nodes, c'.net, c'.h)
  {
    forall q, t | (q, t) in c'.h.votes ensures VoteRecorded(c'.nodes, c'.h, q, t) {
      assert VoteRecorded(c.nodes, c.h, q, t);
    }
    forall q | q in c'.nodes ensures NodeVote(c'.h, c'.nodes[q]) {
      assert NodeVote(c.h, c.nodes[q]);
    }
    forall req | req in c'.net.voteReqs ensures VoteAsked(c'.nodes, req) {
      assert VoteAsked(c.nodes, req);
    }
  }

  lemma NoVoteCandidates(c: State, c': State, p: NodeId)
    requires QuietStep(c, c', p) && CandidatesCarry(c.nodes, c.h)
    requires VoteKept(c.nodes[p], c'.nodes[p]) && c'.h.votes == c.h.votes
    ensures CandidatesCarry(c'.nodes, c'.h)
  {
    forall q | q in c'.nodes && c'.nodes[q].role.Candidate? ensures CandidateCarries(c'.nodes, c'.h, q) {
      CandidateStays(c, c', p, q);
    }
  }

  /** A step that casts no vote, commits nothing and accepts nothing. */
  ghost predicate LocalStep(c: State, c': State, p: NodeId) {
    && QuietStep(c, c', p) && NothingCommitted(c, c', p)
    && VoteKept(c.nodes[p], c'.nodes[p]) && c'.h.votes == c.h.votes
    && ProgressOk(c'.h, c'.nodes[p])
    && c'.net.voteReqs == c.net.voteReqs && c'.net.voteReps == c.net.voteReps
    && c'.net.appends == c.net.appends
    && (forall r | r in c'.net.appendReps && r.reply.success :: r in c.net.appendReps)
  }

  lemma LocalStepKeeps(c: State, c': State, p: NodeId)
    requires LocalStep(c, c', p) && Inv(c)
    ensures Inv(c') && Evolves(c, c')
  {
    NoVoteVotes(c, c', p);
    NoVoteCandidates(c, c', p);
    UncommittingKeeps(c, c', p);
  }
}
