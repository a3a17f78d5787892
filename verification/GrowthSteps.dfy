/** Winning an election and appending to the leader's own log keep the invariant. */
module GrowthSteps {
  import opened RaftTypes
  import opened LogOps
  import opened NodeModel
  import opened Cluster
  import opened Invariants
  import opened Evolution
  import opened CommitSteps

  // ---- What any growth of the history keeps ----

  lemma NetStays(c: State, c': State)
    requires Evolves(c, c') && NetInv(c.nodes, c.net, c.h) && c'.net == c.net
    ensures NetInv(c'.nodes, c'.net, c'.h)
  {
    forall r: AppendRequest | RequestOk(c.h, r) ensures RequestOk(c'.h, r) {
      RequestStays(c.h, c'.h, r);
    }
    forall rec | rec in c'.net.appendReps && rec.reply.success
      ensures RequestOk(c'.h, rec.req) && Ack(c'.h, rec.from, rec.req.term) >= rec.req.Last()
    {
      assert Ack(c.h, rec.from, rec.req.term) <= Ack(c'.h, rec.from, rec.req.term);
    }
  }

  lemma CommittedPrefixStays(h: History, h': History, s: NodeState, s': NodeState)
    requires LogsGrow(h, h') && CommitsGrow(h, h') && s.term <= s'.term && s'.commit == s.commit && s.log <= s'.log
    requires s.commit <= |s.log| && CommittedBy(h, s.log[..s.commit], s.term)
    ensures s'.commit <= |s'.log| && CommittedBy(h', s'.log[..s'.commit], s'.term)
  {
    assert s'.log[..s.commit] == s.log[..s.commit];
    CommittedByStays(h, h', s.log[..s.commit], s.term, s'.term);
  }

  /** Commitment survives any change that keeps every node's committed entries. */
  lemma CommitsStay(c: State, c': State)
    requires Evolves(c, c') && CommitInv(c.nodes, c.h) && c'.h.committed == c.h.committed
    requires forall q | q in c.nodes :: c'.nodes[q].commit == c.nodes[q].commit && c.nodes[q].log <= c'.nodes[q].log
    ensures CommitInv(c'.nodes, c'.h)
  {
    forall t | t in c'.h.committed ensures CommitRecorded(c'.nodes.Keys, c'.h, t) {
      assert CommitRecorded(c.nodes.Keys, c.h, t);
      AckQuorumStays(c.nodes.Keys, c.nodes, c.h, c'.h, t, c.h.committed[t]);
    }
    forall q | q in c'.nodes
      ensures c'.nodes[q].commit <= |c'.nodes[q].log|
      ensures CommittedBy(c'.h, c'.nodes[q].log[..c'.nodes[q].commit], c'.nodes[q].term)
    {
      CommittedPrefixStays(c.h, c'.h, c.nodes[q], c'.nodes[q]);
    }
  }

  lemma ClogStays(c: State, c': State)
    requires Evolves(c, c') && ClogInv(c.h) && c'.h.committed == c.h.committed && c'.h.clog == c.h.clog
    ensures ClogInv(c'.h)
  {
    forall t | t in c'.h.committed ensures t in c'.h.logs && Agree(c'.h.logs[t], c'.h.clog, c'.h.committed[t]) {
      AgreeGrows(c.h.clog, c.h.logs[t], c'.h.logs[t], c.h.committed[t]);
    }
  }

  // ---- Winning an election ----

  /** The votes a candidate counts are votes cast for it, by a majority. */
  lemma WinnerIsElected(c: State, p: NodeId, req: VoteRequest, granters: set<NodeId>)
    requires NodesOk(c.nodes) && VoteInv(c.nodes, c.net, c.h) && p in c.nodes
    requires WinsVotes(c.nodes[p], c.net.voteReps, req, granters) && CanPromote(c.nodes[p], req.term)
    ensures Elected(c.nodes.Keys, c.h, req.term, p)
  {
    assert Configured(c.nodes, p) && NodeVote(c.h, c.nodes[p]);
    var q := granters + {p};
    PeersAndSelf(c.nodes, p);
    assert p !in granters;
    assert Quorum(c.nodes.Keys, q);
    forall v | v in q ensures (v, req.term) in c.h.votes && c.h.votes[(v, req.term)] == p {
      if v != p {
        var r :| r in c.net.voteReps && r.voter == v && r.req == req && r.reply.granted;
      }
    }
    assert VotedBy(c.h, q, req.term, p);
  }

  /** A candidate can be elected only in a term that has had no leader. */
  lemma TermHasNoLeader(nodes: Nodes, h: History, p: NodeId)
    requires LeaderInv(nodes, h) && p in nodes && nodes[p].role.Candidate?
    requires Elected(nodes.Keys, h, nodes[p].term, p)
    ensures nodes[p].term !in h.leaders && nodes[p].term !in h.logs
  {
    var t := nodes[p].term;
    if t in h.leaders {
      assert LeaderOfTerm(nodes, h, t);
      var q1 :| Quorum(nodes.Keys, q1) && VotedBy(h, q1, t, p);
      var q2 :| Quorum(nodes.Keys, q2) && VotedBy(h, q2, t, h.leaders[t]);
      var v := QuorumsMeet(nodes.Keys, q1, q2);
    }
  }

  /** What a promotion needs: a candidate elected in a fresh term. */
  ghost predicate Promotable(c: State, p: NodeId) {
    && p in c.nodes && c.nodes[p].role.Candidate?
    && Elected(c.nodes.Keys, c.h, c.nodes[p].term, p)
    && c.nodes[p].term !in c.h.leaders && c.nodes[p].term !in c.h.logs
  }

  lemma NoAckOfFreshTerm(nodes: Nodes, h: History, q: NodeId, t: nat)
    requires AckInv(nodes, h) && t !in h.logs
    ensures Ack(h, q, t) == 0
  {
  }

  lemma PromotedEvolves(c: State, p: NodeId)
    requires Promotable(c, p) && AckInv(c.nodes, c.h)
    ensures Evolves(c, Promoted(c, p))
  {
    NoAckOfFreshTerm(c.nodes, c.h, p, c.nodes[p].term);
  }

  lemma PromotedNodes(c: State, p: NodeId)
    requires Promotable(c, p) && NodesOk(c.nodes)
    ensures NodesOk(Promoted(c, p).nodes)
  {
    var c' := Promoted(c, p);
    forall q | q in c'.nodes ensures Configured(c'.nodes, q) {
      assert Configured(c.nodes, q);
    }
  }

  lemma PromotedVotes(c: State, p: NodeId)
    requires Promotable(c, p) && VoteInv(c.nodes, c.net, c.h)
    ensures var c' := Promoted(c, p); VoteInv(c'.nodes, c'.net, c'.h)
  {
    var c' := Promoted(c, p);
    forall q, t | (q, t) in c'.h.votes ensures VoteRecorded(c'.nodes, c'.h, q, t) {
      assert VoteRecorded(c.nodes, c.h, q, t);
    }
    forall q | q in c'.nodes ensures NodeVote(c'.h, c'.nodes[q]) {
      assert NodeVote(c.h, c.nodes[q]);
    }
    forall req | req in c'.net.voteReqs ensures VoteAsked(c'.nodes, req) {
      assert VoteAsked(c.nodes, req);
    }
  }

  lemma PromotedLeaders(c: State, p: NodeId)
    requires Promotable(c, p) && LeaderInv(c.nodes, c.h) && VoteInv(c.nodes, c.net, c.h) && NodesOk(c.nodes)
    ensures var c' := Promoted(c, p); LeaderInv(c'.nodes, c'.h)
  {
    var c' := Promoted(c, p);
    PromotedLeaderOfTerm(c, p);
    PromotedLeadsTerm(c, p);
  }

  lemma PromotedLeadsTerm(c: State, p: NodeId)
    requires Promotable(c, p) && NodesOk(c.nodes)
    requires forall q | q in c.nodes :: LeadsTerm(c.h, c.nodes[q])
    ensures var c' := Promoted(c, p); forall q | q in c'.nodes :: LeadsTerm(c'.h, c'.nodes[q])
  {
    var c' := Promoted(c, p);
    assert Configured(c.nodes, p);
    forall q | q in c'.nodes ensures LeadsTerm(c'.h, c'.nodes[q]) {
      assert LeadsTerm(c.h, c.nodes[q]);
    }
  }

  lemma PromotedLeaderOfTerm(c: State, p: NodeId)
    requires Promotable(c, p) && VoteInv(c.nodes, c.net, c.h)
    requires forall t | t in c.h.leaders :: LeaderOfTerm(c.nodes, c.h, t)
    ensures var c' := Promoted(c, p); forall t | t in c'.h.leaders :: LeaderOfTerm(c'.nodes, c'.h, t)
  {
    var c' := Promoted(c, p);
    assert NodeVote(c.h, c.nodes[p]);
    forall t | t in c'.h.leaders ensures LeaderOfTerm(c'.nodes, c'.h, t) {
      if t in c.h.leaders { assert LeaderOfTerm(c.nodes, c.h, t); }
      ElectedStays(c.nodes.Keys, c.h, c'.h, t, c'.h.leaders[t]);
    }
  }

  lemma PromotedLogs(c: State, p: NodeId)
    requires Promotable(c, p) && LogInv(c.nodes, c.h) && Evolves(c, Promoted(c, p))
    ensures var c' := Promoted(c, p); LogInv(c'.nodes, c'.h)
  {
    var c' := Promoted(c, p);
    forall log: Log | Anchored(c.h.logs, log) ensures Anchored(c'.h.logs, log) {
      AnchoredStays(c.h, c'.h, log);
    }
  }

  lemma PromotedAcks(c: State, p: NodeId)
    requires Promotable(c, p) && AckInv(c.nodes, c.h) && LeaderInv(c.nodes, c.h)
    ensures var c' := Promoted(c, p); AckInv(c'.nodes, c'.h)
  {
    var c' := Promoted(c, p);
    forall q, t | (q, t) in c'.h.acked ensures AckRecorded(c'.nodes, c'.h, q, t) {
      if (q, t) in c.h.acked { assert AckRecorded(c.nodes, c.h, q, t); }
    }
    forall q | q in c'.nodes && c'.nodes[q].role.Leader?
      ensures Ack(c'.h, q, c'.nodes[q].term) == |c'.nodes[q].log|
    {
      if q != p { assert Ack(c.h, q, c.nodes[q].term) == |c.nodes[q].log|; }
    }
  }

  lemma PromotedProgress(c: State, p: NodeId)
    requires Promotable(c, p) && ProgressInv(c.nodes, c.h) && Evolves(c, Promoted(c, p))
    ensures var c' := Promoted(c, p); ProgressInv(c'.nodes, c'.h)
  {
    var c' := Promoted(c, p);
    forall q | q in c'.nodes ensures ProgressOk(c'.h, c'.nodes[q]) {
      assert ProgressOk(c.h, c.nodes[q]);
      forall r | r in c.nodes[q].peers ensures Ack(c.h, r, c.nodes[q].term) <= Ack(c'.h, r, c.nodes[q].term) {
      }
    }
  }

  /** A new leader has no entry of its own term yet. */
  lemma PromotedOwnEntry(c: State, p: NodeId, t: nat, m: nat)
    requires Promotable(c, p) && LogInv(c.nodes, c.h) && OwnEntry(Promoted(c, p).h, t, m)
    ensures t != c.nodes[p].term && OwnEntry(c.h, t, m)
  {
    var log := c.nodes[p].log;
    assert Anchored(c.h.logs, log);
    assert 0 < m <= |log| ==> AnchoredAt(c.h.logs, log, m - 1);
  }

  /** The winner carries all that may be committed: each voter vouched for what it had stored. */
  lemma WinnerCarries(c: State, p: NodeId, t: nat, m: nat)
    requires Promotable(c, p) && VoteInv(c.nodes, c.net, c.h) && CandidateCarries(c.nodes, c.h, p)
    requires t < c.nodes[p].term && OwnEntry(c.h, t, m)
    ensures Carries(c.nodes, c.h, c.nodes[p].log, t, m)
  {
    var q :| Quorum(c.nodes.Keys, q) && VotedBy(c.h, q, c.nodes[p].term, p);
    if v :| v in q && Ack(c.h, v, t) >= m {
      assert (v, c.nodes[p].term) in c.h.votes;
    } else {
      forall v | v in q ensures c.nodes[v].term > t && Ack(c.h, v, t) < m {
        assert VoteRecorded(c.nodes, c.h, v, c.nodes[p].term);
      }
      assert PassedBy(c.nodes, c.h, q, t, m);
    }
  }

  lemma PromotedLeadersCarry(c: State, p: NodeId)
    requires Promotable(c, p) && Evolves(c, Promoted(c, p))
    requires VoteInv(c.nodes, c.net, c.h) && LogInv(c.nodes, c.h)
    requires LeadersCarry(c.nodes, c.h) && CandidateCarries(c.nodes, c.h, p)
    ensures var c' := Promoted(c, p); LeadersCarry(c'.nodes, c'.h)
  {
    var c' := Promoted(c, p);
    forall t: nat, later: nat, m: nat | t < later && later in c'.h.logs && OwnEntry(c'.h, t, m)
      ensures Carries(c'.nodes, c'.h, c'.h.logs[later], t, m)
    {
      PromotedOwnEntry(c, p, t, m);
      if later == c.nodes[p].term { WinnerCarries(c, p, t, m); }
      CarriesStays(c, c', c'.h.logs[later], t, m);
    }
  }

  lemma PromotedNodesCarry(c: State, p: NodeId)
    requires Promotable(c, p) && Evolves(c, Promoted(c, p)) && LogInv(c.nodes, c.h) && NodesCarry(c.nodes, c.h)
    ensures var c' := Promoted(c, p); NodesCarry(c'.nodes, c'.h)
  {
    var c' := Promoted(c, p);
    forall q: NodeId, t: nat, m: nat | q in c'.nodes && OwnEntry(c'.h, t, m) && Ack(c'.h, q, t) >= m
      ensures Carries(c'.nodes, c'.h, c'.nodes[q].log, t, m)
    {
      PromotedOwnEntry(c, p, t, m);
      assert Ack(c.h, q, t) >= m;
      CarriesStays(c, c', c.nodes[q].log, t, m);
    }
  }

  lemma PromotedCandidates(c: State, p: NodeId)
    requires Promotable(c, p) && Evolves(c, Promoted(c, p)) && LogInv(c.nodes, c.h) && CandidatesCarry(c.nodes, c.h)
    ensures var c' := Promoted(c, p); CandidatesCarry(c'.nodes, c'.h)
  {
    var c' := Promoted(c, p);
    forall q | q in c'.nodes && c'.nodes[q].role.Candidate? ensures CandidateCarries(c'.nodes, c'.h, q) {
      assert CandidateCarries(c.nodes, c.h, q);
      forall v: NodeId, t: nat, m: nat |
        && (v, c'.nodes[q].term) in c'.h.votes && c'.h.votes[(v, c'.nodes[q].term)] == q
        && t < c'.nodes[q].term && OwnEntry(c'.h, t, m) && Ack(c'.h, v, t) >= m
        ensures Carries(c'.nodes, c'.h, c'.nodes[q].log, t, m)
      {
        PromotedOwnEntry(c, p, t, m);
        assert Ack(c.h, v, t) >= m;
        CarriesStays(c, c', c.nodes[q].log, t, m);
      }
    }
  }

  lemma PromotedElections(c: State, p: NodeId)
    requires Promotable(c, p) && NodesOk(c.nodes) && VoteInv(c.nodes, c.net, c.h) && LeaderInv(c.nodes, c.h)
    requires LogInv(c.nodes, c.h) && AckInv(c.nodes, c.h)
    ensures var c' := Promoted(c, p);
      && Evolves(c, c') && NodesOk(c'.nodes) && VoteInv(c'.nodes, c'.net, c'.h) && LeaderInv(c'.nodes, c'.h)
      && LogInv(c'.nodes, c'.h) && AckInv(c'.nodes, c'.h)
  {
    PromotedEvolves(c, p);
    PromotedNodes(c, p);
    PromotedVotes(c, p);
    PromotedLeaders(c, p);
    PromotedLogs(c, p);
    PromotedAcks(c, p);
  }

  lemma PromotedCarries(c: State, p: NodeId)
    requires Promotable(c, p) && Evolves(c, Promoted(c, p))
    requires VoteInv(c.nodes, c.net, c.h) && LeaderInv(c.nodes, c.h) && LogInv(c.nodes, c.h) && AckInv(c.nodes, c.h)
    requires LeadersCarry(c.nodes, c.h) && NodesCarry(c.nodes, c.h) && CandidatesCarry(c.nodes, c.h)
    ensures var c' := Promoted(c, p);
      LeadersCarry(c'.nodes, c'.h) && NodesCarry(c'.nodes, c'.h) && CandidatesCarry(c'.nodes, c'.h)
  {
    PromotedLeadersCarry(c, p);
    PromotedNodesCarry(c, p);
    PromotedCandidates(c, p);
  }

  lemma PromotedCommits(c: State, p: NodeId)
    requires Promotable(c, p) && Evolves(c, Promoted(c, p))
    requires NetInv(c.nodes, c.net, c.h) && ProgressInv(c.nodes, c.h) && CommitInv(c.nodes, c.h) && ClogInv(c.h)
    ensures var c' := Promoted(c, p);
      && NetInv(c'.nodes, c'.net, c'.h) && ProgressInv(c'.nodes, c'.h)
      && CommitInv(c'.nodes, c'.h) && ClogInv(c'.h)
  {
    NetStays(c, Promoted(c, p));
    PromotedProgress(c, p);
    CommitsStay(c, Promoted(c, p));
    ClogStays(c, Promoted(c, p));
  }

  lemma PromotedKeeps(c: State, p: NodeId, c': State)
    requires Inv(c) && Promotable(c, p) && c' == Promoted(c, p)
    ensures Inv(c') && Evolves(c, c')
  {
    PromotedElections(c, p);
    PromotedCarries(c, p);
    PromotedCommits(c, p);
  }

  // ---- Appending to the leader's log ----

  ghost predicate Extendable(c: State, p: NodeId) {
    p in c.nodes && c.nodes[p].role.Leader? && c.nodes[p].id == p && LeadsTerm(c.h, c.nodes[p]) && c.nodes[p].term > 0
  }

  lemma ExtendedEvolves(c: State, p: NodeId, command: Command)
    requires Extendable(c, p) && AckInv(c.nodes, c.h)
    ensures Evolves(c, Extended(c, p, command))
  {
    assert Ack(c.h, p, c.nodes[p].term) == |c.nodes[p].log|;
  }

  lemma ExtendedNodes(c: State, p: NodeId, command: Command)
    requires Extendable(c, p) && NodesOk(c.nodes)
    ensures NodesOk(Extended(c, p, command).nodes)
  {
    var c' := Extended(c, p, command);
    forall q | q in c'.nodes ensures Configured(c'.nodes, q) {
      assert Configured(c.nodes, q);
    }
  }

  lemma ExtendedVotes(c: State, p: NodeId, command: Command)
    requires Extendable(c, p) && VoteInv(c.nodes, c.net, c.h)
    ensures var c' := Extended(c, p, command); VoteInv(c'.nodes, c'.net, c'.h)
  {
    var c' := Extended(c, p, command);
    forall q, t | (q, t) in c'.h.votes ensures VoteRecorded(c'.nodes, c'.h, q, t) {
      assert VoteRecorded(c.nodes, c.h, q, t);
    }
    forall q | q in c'.nodes ensures NodeVote(c'.h, c'.nodes[q]) {
      assert NodeVote(c.h, c.nodes[q]);
    }
    forall req | req in c'.net.voteReqs ensures VoteAsked(c'.nodes, req) {
      assert VoteAsked(c.nodes, req);
    }
  }

  lemma ExtendedLeaders(c: State, p: NodeId, command: Command)
    requires Extendable(c, p) && LeaderInv(c.nodes, c.h) && NodesOk(c.nodes)
    ensures var c' := Extended(c, p, command); LeaderInv(c'.nodes, c'.h)
  {
    var c' := Extended(c, p, command);
    forall t | t in c'.h.leaders ensures LeaderOfTerm(c'.nodes, c'.h, t) {
      assert LeaderOfTerm(c.nodes, c.h, t);
      ElectedStays(c.nodes.Keys, c.h, c'.h, t, c'.h.leaders[t]);
    }
    forall q | q in c'.nodes ensures LeadsTerm(c'.h, c'.nodes[q]) {
      assert LeadsTerm(c.h, c.nodes[q]) && Configured(c.nodes, q);
    }
  }

  lemma ExtendedLogs(c: State, p: NodeId, command: Command)
    requires Extendable(c, p) && LogInv(c.nodes, c.h) && Evolves(c, Extended(c, p, command))
    ensures var c' := Extended(c, p, command); LogInv(c'.nodes, c'.h)
  {
    var c' := Extended(c, p, command);
    var log, log' := c.nodes[p].log, c'.nodes[p].log;
    forall l: Log | Anchored(c.h.logs, l) ensures Anchored(c'.h.logs, l) {
      AnchoredStays(c.h, c'.h, l);
    }
    forall i | 0 <= i < |log'| ensures AnchoredAt(c'.h.logs, log', i) {
      if i < |log| {
        assert AnchoredAt(c'.h.logs, log, i);
        assert log'[..i + 1] == log[..i + 1];
      }
    }
  }

  lemma ExtendedAcks(c: State, p: NodeId, command: Command)
    requires Extendable(c, p) && AckInv(c.nodes, c.h) && LeaderInv(c.nodes, c.h) && Evolves(c, Extended(c, p, command))
    ensures var c' := Extended(c, p, command); AckInv(c'.nodes, c'.h)
  {
    var c' := Extended(c, p, command);
    forall q, t | (q, t) in c'.h.acked ensures AckRecorded(c'.nodes, c'.h, q, t) {
      if (q, t) in c.h.acked {
        assert AckRecorded(c.nodes, c.h, q, t);
        if q != p && t == c.nodes[q].term {
          AgreeGrows(c.nodes[q].log, c.h.logs[t], c'.h.logs[t], c.h.acked[(q, t)]);
        }
      }
    }
    forall q | q in c'.nodes && c'.nodes[q].role.Leader?
      ensures Ack(c'.h, q, c'.nodes[q].term) == |c'.nodes[q].log|
    {
      if q != p { assert Ack(c.h, q, c.nodes[q].term) == |c.nodes[q].log|; }
    }
  }

  lemma ExtendedProgress(c: State, p: NodeId, command: Command)
    requires Extendable(c, p) && ProgressInv(c.nodes, c.h) && Evolves(c, Extended(c, p, command))
    ensures var c' := Extended(c, p, command); ProgressInv(c'.nodes, c'.h)
  {
    var c' := Extended(c, p, command);
    forall q | q in c'.nodes ensures ProgressOk(c'.h, c'.nodes[q]) {
      assert ProgressOk(c.h, c.nodes[q]);
      forall r | r in c.nodes[q].peers ensures Ack(c.h, r, c.nodes[q].term) <= Ack(c'.h, r, c.nodes[q].term) {
      }
    }
  }

  lemma ExtendedOwnEntry(c: State, p: NodeId, command: Command, t: nat, m: nat)
    requires Extendable(c, p) && OwnEntry(Extended(c, p, command).h, t, m)
    ensures OwnEntry(c.h, t, m) || (t == c.nodes[p].term && m == |c.nodes[p].log| + 1)
  {
  }

  /** An entry added after a later leader was elected can never be committed. */
  lemma LateEntryIsBlocked(c: State, p: NodeId, command: Command, later: nat)
    requires Extendable(c, p) && AckInv(c.nodes, c.h) && VoteInv(c.nodes, c.net, c.h) && LeaderInv(c.nodes, c.h)
    requires later in c.h.leaders && c.nodes[p].term < later
    ensures var c' := Extended(c, p, command); Blocked(c'.nodes, c'.h, c.nodes[p].term, |c.nodes[p].log| + 1)
  {
    var c' := Extended(c, p, command);
    var t, m := c.nodes[p].term, |c.nodes[p].log| + 1;
    assert LeaderOfTerm(c.nodes, c.h, later);
    var q :| Quorum(c.nodes.Keys, q) && VotedBy(c.h, q, later, c.h.leaders[later]);
    forall v | v in q ensures c'.nodes[v].term > t && Ack(c'.h, v, t) < m {
      assert VoteRecorded(c.nodes, c.h, v, later);
      if (v, t) in c.h.acked { assert AckRecorded(c.nodes, c.h, v, t); }
    }
    assert PassedBy(c'.nodes, c'.h, q, t, m);
  }

  /** What a log carries, a longer log carries. */
  lemma CarriesLonger(nodes: Nodes, h: History, log: Log, log': Log, t: nat, m: nat)
    requires t in h.logs && Carries(nodes, h, log, t, m) && log <= log'
    ensures Carries(nodes, h, log', t, m)
  {
    if Agree(log, h.logs[t], m) { assert log'[..m] == log[..m]; }
  }

  lemma ExtendedLeadersCarry(c: State, p: NodeId, command: Command)
    requires Extendable(c, p) && Evolves(c, Extended(c, p, command))
    requires AckInv(c.nodes, c.h) && VoteInv(c.nodes, c.net, c.h) && LeaderInv(c.nodes, c.h)
    requires LeadersCarry(c.nodes, c.h)
    ensures var c' := Extended(c, p, command); LeadersCarry(c'.nodes, c'.h)
  {
    var c' := Extended(c, p, command);
    forall t: nat, later: nat, m: nat | t < later && later in c'.h.logs && OwnEntry(c'.h, t, m)
      ensures Carries(c'.nodes, c'.h, c'.h.logs[later], t, m)
    {
      ExtendedOwnEntry(c, p, command, t, m);
      if OwnEntry(c.h, t, m) {
        CarriesStays(c, c', c.h.logs[later], t, m);
        CarriesLonger(c'.nodes, c'.h, c.h.logs[later], c'.h.logs[later], t, m);
      } else {
        LateEntryIsBlocked(c, p, command, later);
      }
    }
  }

  /** Only the leader itself has stored its newest entry. */
  lemma NewestEntryAck(c: State, p: NodeId, command: Command, q: NodeId)
    requires Extendable(c, p) && AckInv(c.nodes, c.h)
    requires Ack(Extended(c, p, command).h, q, c.nodes[p].term) > |c.nodes[p].log|
    ensures q == p
  {
    if (q, c.nodes[p].term) in c.h.acked { assert AckRecorded(c.nodes, c.h, q, c.nodes[p].term); }
  }

  lemma ExtendedNodesCarry(c: State, p: NodeId, command: Command)
    requires Extendable(c, p) && Evolves(c, Extended(c, p, command)) && AckInv(c.nodes, c.h) && NodesCarry(c.nodes, c.h)
    ensures var c' := Extended(c, p, command); NodesCarry(c'.nodes, c'.h)
  {
    var c' := Extended(c, p, command);
    forall q: NodeId, t: nat, m: nat | q in c'.nodes && OwnEntry(c'.h, t, m) && Ack(c'.h, q, t) >= m
      ensures Carries(c'.nodes, c'.h, c'.nodes[q].log, t, m)
    {
      ExtendedOwnEntry(c, p, command, t, m);
      if OwnEntry(c.h, t, m) {
        assert Ack(c.h, q, t) >= m;
        CarriesStays(c, c', c.nodes[q].log, t, m);
        CarriesLonger(c'.nodes, c'.h, c.nodes[q].log, c'.nodes[q].log, t, m);
      } else {
        NewestEntryAck(c, p, command, q);
      }
    }
  }

  lemma ExtendedCandidates(c: State, p: NodeId, command: Command)
    requires Extendable(c, p) && Evolves(c, Extended(c, p, command)) && AckInv(c.nodes, c.h)
    requires VoteInv(c.nodes, c.net, c.h) && CandidatesCarry(c.nodes, c.h)
    ensures var c' := Extended(c, p, command); CandidatesCarry(c'.nodes, c'.h)
  {
    var c' := Extended(c, p, command);
    forall q | q in c'.nodes && c'.nodes[q].role.Candidate? ensures CandidateCarries(c'.nodes, c'.h, q) {
      assert CandidateCarries(c.nodes, c.h, q);
      forall v: NodeId, t: nat, m: nat |
        && (v, c'.nodes[q].term) in c'.h.votes && c'.h.votes[(v, c'.nodes[q].term)] == q
        && t < c'.nodes[q].term && OwnEntry(c'.h, t, m) && Ack(c'.h, v, t) >= m
        ensures Carries(c'.nodes, c'.h, c'.nodes[q].log, t, m)
      {
        ExtendedOwnEntry(c, p, command, t, m);
        assert VoteRecorded(c.nodes, c.h, v, c.nodes[q].term);
        if !OwnEntry(c.h, t, m) { NewestEntryAck(c, p, command, v); }
        assert Ack(c.h, v, t) >= m;
        CarriesStays(c, c', c.nodes[q].log, t, m);
      }
    }
  }

  lemma ExtendedElections(c: State, p: NodeId, command: Command)
    requires Extendable(c, p) && NodesOk(c.nodes) && VoteInv(c.nodes, c.net, c.h) && LeaderInv(c.nodes, c.h)
    requires LogInv(c.nodes, c.h) && AckInv(c.nodes, c.h)
    ensures var c' := Extended(c, p, command);
      && Evolves(c, c') && NodesOk(c'.nodes) && VoteInv(c'.nodes, c'.net, c'.h) && LeaderInv(c'.nodes, c'.h)
      && LogInv(c'.nodes, c'.h) && AckInv(c'.nodes, c'.h)
  {
    ExtendedEvolves(c, p, command);
    ExtendedNodes(c, p, command);
    ExtendedVotes(c, p, command);
    ExtendedLeaders(c, p, command);
    ExtendedLogs(c, p, command);
    ExtendedAcks(c, p, command);
  }

  lemma ExtendedCarries(c: State, p: NodeId, command: Command)
    requires Extendable(c, p) && Evolves(c, Extended(c, p, command))
    requires VoteInv(c.nodes, c.net, c.h) && LeaderInv(c.nodes, c.h) && LogInv(c.nodes, c.h) && AckInv(c.nodes, c.h)
    requires LeadersCarry(c.nodes, c.h) && NodesCarry(c.nodes, c.h) && CandidatesCarry(c.nodes, c.h)
    ensures var c' := Extended(c, p, command);
      LeadersCarry(c'.nodes, c'.h) && NodesCarry(c'.nodes, c'.h) && CandidatesCarry(c'.nodes, c'.h)
  {
    ExtendedLeadersCarry(c, p, command);
    ExtendedNodesCarry(c, p, command);
    ExtendedCandidates(c, p, command);
  }

  lemma ExtendedCommits(c: State, p: NodeId, command: Command)
    requires Extendable(c, p) && Evolves(c, Extended(c, p, command))
    requires NetInv(c.nodes, c.net, c.h) && ProgressInv(c.nodes, c.h) && CommitInv(c.nodes, c.h) && ClogInv(c.h)
    ensures var c' := Extended(c, p, command);
      && NetInv(c'.nodes, c'.net, c'.h) && ProgressInv(c'.nodes, c'.h)
      && CommitInv(c'.nodes, c'.h) && ClogInv(c'.h)
  {
    NetStays(c, Extended(c, p, command));
    ExtendedProgress(c, p, command);
    CommitsStay(c, Extended(c, p, command));
    ClogStays(c, Extended(c, p, command));
  }

  lemma ExtendedKeeps(c: State, p: NodeId, command: Command, c': State)
    requires Inv(c) && Extendable(c, p) && c' == Extended(c, p, command)
    ensures Inv(c') && Evolves(c, c')
  {
    ExtendedElections(c, p, command);
    ExtendedCarries(c, p, command);
    ExtendedCommits(c, p, command);
  }
}
