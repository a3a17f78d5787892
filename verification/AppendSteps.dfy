/** Receiving an AppendEntries request keeps the invariant. */
module AppendSteps {
  import opened RaftTypes
  import opened LogOps
  import opened NodeModel
  import opened Cluster
  import opened Invariants
  import opened Evolution
  import opened QuietSteps
  import opened CommitSteps

  /**
    Node p, following the leader of `term`, now holds the first m entries of
    that leader's log and has kept everything it already shared with it.
   */
  ghost predicate Stored(h: History, s: NodeState, s': NodeState, term: nat, m: nat) {
    && term in h.logs && m <= |h.logs[term]|
    && s'.id == s.id && s'.peers == s.peers && s'.selfMember == s.selfMember
    && s'.base == s.base && s'.applied == s.applied && s.commit <= s'.commit <= |s'.log|
    && s'.role.Follower? && s'.nextIndex.None? && s'.matchIndex.None?
    && s.term <= s'.term == term && VoteKept(s, s')
    && Agree(s'.log, h.logs[term], m)
    && (s'.log == s.log || s'.log == h.logs[term][..m])
    && (forall k: nat | Agree(s.log, h.logs[term], k) :: Agree(s'.log, s.log, k))
    && CommittedBy(h, s'.log[..s'.commit], term)
  }

  ghost predicate StoredStep(c: State, c': State, msg: AppendMsg) {
    var p, term, m := msg.to, msg.req.term, msg.req.Last();
    && p in c.nodes && p in c'.nodes
    && c'.nodes == c.nodes[p := c'.nodes[p]]
    && Stored(c.h, c.nodes[p], c'.nodes[p], term, m)
    && c'.h == c.h.(acked := c.h.acked[(p, term) := Max(Ack(c.h, p, term), m)])
    && c'.net == c.net.(appendReps := c.net.appendReps + {AppendRecord(p, msg.req, AppendReply(term, true))})
    && RequestOk(c.h, msg.req)
  }

  // ---- The request makes the node store the leader's entries ----

  lemma AnchoredNumbered(logs: map<nat, Log>, log: Log)
    requires Anchored(logs, log)
    ensures Numbered(log)
  {
    forall i | 0 <= i < |log| ensures log[i].index == i + 1 {
      assert AnchoredAt(logs, log, i);
    }
  }

  /** What a node has committed, the leader it follows has too. */
  lemma FollowerAgreesOnCommitted(nodes: Nodes, h: History, p: NodeId, term: nat)
    requires CommitsOk(nodes, h) && p in nodes && nodes[p].term <= term && term in h.logs
    requires nodes[p].commit <= |nodes[p].log|
    requires CommittedBy(h, nodes[p].log[..nodes[p].commit], nodes[p].term)
    ensures Agree(nodes[p].log, h.logs[term], nodes[p].commit)
  {
    LeaderHasPrefix(nodes, h, nodes[p].log[..nodes[p].commit], nodes[p].term, term);
  }

  /** The log after an accepted request. */
  lemma AcceptedLog(h: History, s: NodeState, req: AppendRequest)
    requires LogsAnchored(h) && Anchored(h.logs, s.log) && RequestOk(h, req) && req.WellFormed()
    requires s.base <= s.commit <= |s.log| && Agree(s.log, h.logs[req.term], s.commit)
    requires Accepts(s.log, s.base, req.prevIndex, req.prevTerm)
    ensures req.prevIndex <= |s.log|
    ensures var r := Merge(s.log, s.base, req.prevIndex, req.entries);
      && Agree(r, h.logs[req.term], req.Last())
      && (r == s.log || r == h.logs[req.term][..req.Last()])
      && (forall k: nat | Agree(s.log, h.logs[req.term], k) :: Agree(r, s.log, k))
  {
    var g := h.logs[req.term];
    AcceptedPosition(s.log, s.base, req.prevIndex, req.prevTerm);
    AnchoredNumbered(h.logs, g);
    AnchoredLogsMatch(h, s.log, g);
    AgreeShorter(s.log, g, s.commit, Min(s.base, req.Last()));
    MergeFollowsLeader(s.log, g, s.base, req.prevIndex, req.Last());
    forall k: nat | Agree(s.log, g, k) ensures Agree(Merge(s.log, s.base, req.prevIndex, req.entries), s.log, k) {
      MergeKeepsAgreement(s.log, g, s.base, req.prevIndex, req.Last(), k);
    }
  }

  /** The follower's commit rule commits only entries it has just checked against the leader's log. */
  lemma AcceptedCommit(h: History, s: NodeState, req: AppendRequest, r: Log)
    requires RequestOk(h, req) && s.commit <= |s.log| && s.term <= req.term
    requires CommittedBy(h, s.log[..s.commit], s.term)
    requires Agree(r, h.logs[req.term], req.Last()) && Agree(r, s.log, s.commit)
    ensures var commit := Max(s.commit, Min(req.leaderCommit, |r|));
      commit <= |r| && CommittedBy(h, r[..commit], req.term)
  {
    var g := h.logs[req.term];
    if req.leaderCommit > s.commit {
      AgreeShorter(r, g, req.Last(), req.leaderCommit);
    } else {
      assert r[..s.commit] == s.log[..s.commit];
      CommittedByStays(h, h, s.log[..s.commit], s.term, req.term);
    }
  }

  lemma FollowedRole(h: History, s: NodeState, req: AppendRequest)
    requires ProgressOk(h, s)
    ensures var s1 := FollowLeader(s, req);
      && s1 == s.(role := Follower, leaderId := req.leader, nextIndex := None, matchIndex := None,
                  term := Max(s.term, req.term), votedFor := if req.term > s.term then NONE else s.votedFor)
  {
  }

  /** What an accepted request makes of a node. */
  function AfterAccepting(s: NodeState, req: AppendRequest): NodeState
    requires s.base <= |s.log| && req.prevIndex <= |s.log|
  {
    var r := Merge(s.log, s.base, req.prevIndex, req.entries);
    FollowLeader(s, req).(log := r, commit := Max(s.commit, Min(req.leaderCommit, |r|)))
  }

  lemma AcceptedAnswer(s: NodeState, req: AppendRequest)
    requires req.WellFormed() && s.base <= |s.log| && AnswerAppend(s, req).1.success
    ensures s.term <= req.term && Accepts(s.log, s.base, req.prevIndex, req.prevTerm) && req.prevIndex <= |s.log|
    ensures AnswerAppend(s, req) == (AfterAccepting(s, req), AppendReply(req.term, true))
  {
    AcceptedPosition(s.log, s.base, req.prevIndex, req.prevTerm);
    PlacedCases(s.log, s.base, req.prevIndex, req.entries);
  }

  lemma AcceptingStores(h: History, s: NodeState, req: AppendRequest)
    requires ProgressOk(h, s) && LogsAnchored(h) && Anchored(h.logs, s.log) && RequestOk(h, req) && req.WellFormed()
    requires s.base <= s.commit <= |s.log| && Agree(s.log, h.logs[req.term], s.commit)
    requires s.term <= req.term && CommittedBy(h, s.log[..s.commit], s.term)
    requires Accepts(s.log, s.base, req.prevIndex, req.prevTerm) && req.prevIndex <= |s.log|
    ensures Stored(h, s, AfterAccepting(s, req), req.term, req.Last())
  {
    FollowedRole(h, s, req);
    AcceptedLog(h, s, req);
    var r := Merge(s.log, s.base, req.prevIndex, req.entries);
    assert Agree(r, s.log, s.commit);
    AcceptedCommit(h, s, req, r);
  }

  lemma AnswerStores(c: State, msg: AppendMsg)
    requires NodesOk(c.nodes) && CommitsOk(c.nodes, c.h) && CommitInv(c.nodes, c.h) && LogInv(c.nodes, c.h)
    requires ProgressInv(c.nodes, c.h) && msg.to in c.nodes && RequestOk(c.h, msg.req)
    requires msg.req.WellFormed() && c.nodes[msg.to].base <= |c.nodes[msg.to].log|
    requires AnswerAppend(c.nodes[msg.to], msg.req).1.success
    ensures Stored(c.h, c.nodes[msg.to], AnswerAppend(c.nodes[msg.to], msg.req).0, msg.req.term, msg.req.Last())
    ensures AnswerAppend(c.nodes[msg.to], msg.req).1 == AppendReply(msg.req.term, true)
  {
    var s, req := c.nodes[msg.to], msg.req;
    assert ProgressOk(c.h, s);
    AcceptedAnswer(s, req);
    FollowerAgreesOnCommitted(c.nodes, c.h, msg.to, req.term);
    AcceptingStores(c.h, s, req);
  }

  // ---- Storing keeps the invariant ----

  lemma StoredEvolves(c: State, c': State, msg: AppendMsg)
    requires StoredStep(c, c', msg)
    ensures Evolves(c, c')
  {
  }

  lemma StoredNodes(c: State, c': State, msg: AppendMsg)
    requires StoredStep(c, c', msg) && NodesOk(c.nodes)
    ensures NodesOk(c'.nodes)
  {
    forall q | q in c'.nodes ensures Configured(c'.nodes, q) {
      assert Configured(c.nodes, q);
    }
  }

  lemma StoredVotes(c: State, c': State, msg: AppendMsg)
    requires StoredStep(c, c', msg) && VoteInv(c.nodes, c.net, c.h)
    ensures VoteInv(c'.nodes, c'.net, c'.h)
  {
    forall q, t | (q, t) in c'.h.votes ensures VoteRecorded(c'.nodes, c'.h, q, t) {
      assert VoteRecorded(c.nodes, c.h, q, t);
    }
    forall q | q in c'.nodes ensures NodeVote(c'.h, c'.nodes[q]) {
      assert NodeVote(c.h, c.nodes[q]);
    }
    forall req | req in c'.net.voteReqs ensures VoteAsked(c'.nodes, req) {
      assert VoteAsked(c.nodes, req);
    }
  }

  lemma StoredLeaders(c: State, c': State, msg: AppendMsg)
    requires StoredStep(c, c', msg) && LeaderInv(c.nodes, c.h)
    ensures LeaderInv(c'.nodes, c'.h)
  {
    forall t | t in c'.h.leaders ensures LeaderOfTerm(c'.nodes, c'.h, t) {
      assert LeaderOfTerm(c.nodes, c.h, t);
      ElectedStays(c.nodes.Keys, c.h, c'.h, t, c'.h.leaders[t]);
    }
    forall q | q in c'.nodes ensures LeadsTerm(c'.h, c'.nodes[q]) {
      assert LeadsTerm(c.h, c.nodes[q]);
    }
  }

  lemma AnchoredPrefix(logs: map<nat, Log>, log: Log, m: nat)
    requires Anchored(logs, log) && m <= |log|
    ensures Anchored(logs, log[..m])
  {
    forall i | 0 <= i < m ensures AnchoredAt(logs, log[..m], i) {
      assert AnchoredAt(logs, log, i);
      assert log[..m][..i + 1] == log[..i + 1];
    }
  }

  lemma StoredLogs(c: State, c': State, msg: AppendMsg)
    requires StoredStep(c, c', msg) && LogInv(c.nodes, c.h)
    ensures LogInv(c'.nodes, c'.h)
  {
    var s', g := c'.nodes[msg.to], c.h.logs[msg.req.term];
    AnchoredPrefix(c.h.logs, g, msg.req.Last());
    assert Anchored(c'.h.logs, s'.log) && TermsUpTo(s'.log, s'.term);
  }

  lemma StoredAckAgrees(c: State, c': State, msg: AppendMsg)
    requires StoredStep(c, c', msg) && AckInv(c.nodes, c.h)
    ensures Agree(c'.nodes[msg.to].log, c.h.logs[msg.req.term], Ack(c'.h, msg.to, msg.req.term))
  {
    if (msg.to, msg.req.term) in c.h.acked {
      assert AckRecorded(c.nodes, c.h, msg.to, msg.req.term);
      assert Agree(c'.nodes[msg.to].log, c.nodes[msg.to].log, Ack(c.h, msg.to, msg.req.term));
    }
  }

  lemma StoredAcks(c: State, c': State, msg: AppendMsg)
    requires StoredStep(c, c', msg) && AckInv(c.nodes, c.h)
    ensures AckInv(c'.nodes, c'.h)
  {
    StoredAckAgrees(c, c', msg);
    forall q, t | (q, t) in c'.h.acked ensures AckRecorded(c'.nodes, c'.h, q, t) {
      if (q, t) in c.h.acked { assert AckRecorded(c.nodes, c.h, q, t); }
    }
    forall q | q in c'.nodes && c'.nodes[q].role.Leader?
      ensures Ack(c'.h, q, c'.nodes[q].term) == |c'.nodes[q].log|
    {
      assert Ack(c.h, q, c.nodes[q].term) == |c.nodes[q].log|;
    }
  }

  lemma StoredNet(c: State, c': State, msg: AppendMsg)
    requires StoredStep(c, c', msg) && Evolves(c, c') && NetInv(c.nodes, c.net, c.h)
    ensures NetInv(c'.nodes, c'.net, c'.h)
  {
    forall r: AppendRequest | RequestOk(c.h, r) ensures RequestOk(c'.h, r) {
      RequestStays(c.h, c'.h, r);
    }
    forall rec | rec in c'.net.appendReps && rec.reply.success
      ensures RequestOk(c'.h, rec.req) && Ack(c'.h, rec.from, rec.req.term) >= rec.req.Last()
    {
      assert Ack(c.h, rec.from, rec.req.term) <= Ack(c'.h, rec.from, rec.req.term);
    }
  }

  lemma StoredProgress(c: State, c': State, msg: AppendMsg)
    requires StoredStep(c, c', msg) && Evolves(c, c') && ProgressInv(c.nodes, c.h)
    ensures ProgressInv(c'.nodes, c'.h)
  {
    forall q | q in c'.nodes ensures ProgressOk(c'.h, c'.nodes[q]) {
      assert ProgressOk(c.h, c.nodes[q]);
      forall r | r in c.nodes[q].peers ensures Ack(c.h, r, c.nodes[q].term) <= Ack(c'.h, r, c.nodes[q].term) {
      }
    }
  }

  lemma StoredLeadersCarry(c: State, c': State, msg: AppendMsg)
    requires StoredStep(c, c', msg) && Evolves(c, c') && LeadersCarry(c.nodes, c.h)
    ensures LeadersCarry(c'.nodes, c'.h)
  {
    forall t: nat, later: nat, m: nat | t < later && later in c'.h.logs && OwnEntry(c'.h, t, m)
      ensures Carries(c'.nodes, c'.h, c'.h.logs[later], t, m)
    {
      assert OwnEntry(c.h, t, m);
      CarriesStays(c, c', c.h.logs[later], t, m);
    }
  }

  /** The node keeps what it acknowledged in earlier terms: the leader it follows carries it too. */
  lemma StoredNodeCarries(c: State, c': State, msg: AppendMsg, t: nat, m: nat)
    requires StoredStep(c, c', msg) && AckInv(c.nodes, c.h) && LeadersCarry(c.nodes, c.h) && NodesCarry(c.nodes, c.h)
    requires OwnEntry(c.h, t, m) && Ack(c.h, msg.to, t) >= m && t != msg.req.term
    ensures Carries(c.nodes, c.h, c'.nodes[msg.to].log, t, m)
  {
    var s, s', g := c.nodes[msg.to], c'.nodes[msg.to], c.h.logs[msg.req.term];
    assert AckRecorded(c.nodes, c.h, msg.to, t);
    assert Carries(c.nodes, c.h, s.log, t, m);
    assert Carries(c.nodes, c.h, g, t, m);
    if Agree(s.log, c.h.logs[t], m) && Agree(g, c.h.logs[t], m) {
      assert Agree(s.log, g, m);
      assert Agree(s'.log, s.log, m);
    }
  }

  lemma StoredNodesCarry(c: State, c': State, msg: AppendMsg)
    requires StoredStep(c, c', msg) && Evolves(c, c')
    requires AckInv(c.nodes, c.h) && LeadersCarry(c.nodes, c.h) && NodesCarry(c.nodes, c.h)
    ensures NodesCarry(c'.nodes, c'.h)
  {
    forall q: NodeId, t: nat, m: nat | q in c'.nodes && OwnEntry(c'.h, t, m) && Ack(c'.h, q, t) >= m
      ensures Carries(c'.nodes, c'.h, c'.nodes[q].log, t, m)
    {
      assert OwnEntry(c.h, t, m);
      if q == msg.to && t == msg.req.term {
        StoredAckAgrees(c, c', msg);
        AgreeShorter(c'.nodes[q].log, c.h.logs[t], Ack(c'.h, q, t), m);
      } else {
        assert Ack(c.h, q, t) >= m;
        if q == msg.to { StoredNodeCarries(c, c', msg, t, m); }
        CarriesStays(c, c', c'.nodes[q].log, t, m);
      }
    }
  }

  lemma StoredCandidates(c: State, c': State, msg: AppendMsg)
    requires StoredStep(c, c', msg) && Evolves(c, c')
    requires VoteInv(c.nodes, c.net, c.h) && CandidatesCarry(c.nodes, c.h)
    ensures CandidatesCarry(c'.nodes, c'.h)
  {
    forall q | q in c'.nodes && c'.nodes[q].role.Candidate? ensures CandidateCarries(c'.nodes, c'.h, q) {
      assert CandidateCarries(c.nodes, c.h, q);
      forall v: NodeId, t: nat, m: nat |
        && (v, c'.nodes[q].term) in c'.h.votes && c'.h.votes[(v, c'.nodes[q].term)] == q
        && t < c'.nodes[q].term && OwnEntry(c'.h, t, m) && Ack(c'.h, v, t) >= m
        ensures Carries(c'.nodes, c'.h, c'.nodes[q].log, t, m)
      {
        assert VoteRecorded(c.nodes, c.h, v, c.nodes[q].term);
        assert OwnEntry(c.h, t, m) && Ack(c.h, v, t) >= m;
        CarriesStays(c, c', c.nodes[q].log, t, m);
      }
    }
  }

  lemma StoredCommits(c: State, c': State, msg: AppendMsg)
    requires StoredStep(c, c', msg) && Evolves(c, c') && CommitInv(c.nodes, c.h)
    ensures CommitInv(c'.nodes, c'.h)
  {
    forall t | t in c'.h.committed ensures CommitRecorded(c'.nodes.Keys, c'.h, t) {
      assert CommitRecorded(c.nodes.Keys, c.h, t);
      AckQuorumStays(c.nodes.Keys, c.nodes, c.h, c'.h, t, c.h.committed[t]);
    }
    forall q | q in c'.nodes
      ensures c'.nodes[q].commit <= |c'.nodes[q].log|
      ensures CommittedBy(c'.h, c'.nodes[q].log[..c'.nodes[q].commit], c'.nodes[q].term)
    {
      var s' := c'.nodes[q];
      CommittedByStays(c.h, c'.h, s'.log[..s'.commit], s'.term, s'.term);
    }
  }

  lemma StoredKeeps(c: State, c': State, msg: AppendMsg)
    requires Inv(c) && StoredStep(c, c', msg)
    ensures Inv(c') && Evolves(c, c')
  {
    StoredEvolves(c, c', msg);
    StoredNodes(c, c', msg);
    StoredVotes(c, c', msg);
    StoredLeaders(c, c', msg);
    StoredLogs(c, c', msg);
    StoredAcks(c, c', msg);
    StoredNet(c, c', msg);
    StoredProgress(c, c', msg);
    StoredLeadersCarry(c, c', msg);
    StoredNodesCarry(c, c', msg);
    StoredCandidates(c, c', msg);
    StoredCommits(c, c', msg);
  }

  // ---- The step ----

  lemma RefusedShape(c: State, msg: AppendMsg)
    requires msg.to in c.nodes && NodesOk(c.nodes) && ProgressInv(c.nodes, c.h)
    requires msg.req.WellFormed() && c.nodes[msg.to].base <= |c.nodes[msg.to].log|
    requires !AnswerAppend(c.nodes[msg.to], msg.req).1.success
    ensures LocalStep(c, DoReceiveAppend(c, msg), msg.to)
  {
    assert ProgressOk(c.h, c.nodes[msg.to]);
    FollowedRole(c.h, c.nodes[msg.to], msg.req);
  }

  lemma AcceptedShape(c: State, msg: AppendMsg)
    requires msg.to in c.nodes && RequestOk(c.h, msg.req)
    requires msg.req.WellFormed() && c.nodes[msg.to].base <= |c.nodes[msg.to].log|
    requires AnswerAppend(c.nodes[msg.to], msg.req).1 == AppendReply(msg.req.term, true)
    requires Stored(c.h, c.nodes[msg.to], AnswerAppend(c.nodes[msg.to], msg.req).0, msg.req.term, msg.req.Last())
    ensures StoredStep(c, DoReceiveAppend(c, msg), msg)
  {
  }

  /** The request is either stored or refused. */
  lemma ReceiveShape(c: State, msg: AppendMsg)
    requires msg.to in c.nodes && msg.req.WellFormed() && c.nodes[msg.to].base <= |c.nodes[msg.to].log|
    requires NodesOk(c.nodes) && CommitsOk(c.nodes, c.h) && CommitInv(c.nodes, c.h) && LogInv(c.nodes, c.h)
    requires ProgressInv(c.nodes, c.h) && RequestOk(c.h, msg.req)
    ensures var c' := DoReceiveAppend(c, msg); StoredStep(c, c', msg) || LocalStep(c, c', msg.to)
  {
    if AnswerAppend(c.nodes[msg.to], msg.req).1.success {
      AnswerStores(c, msg);
      AcceptedShape(c, msg);
    } else {
      RefusedShape(c, msg);
    }
  }

  lemma ReceiveAppendKeeps(c: State, c': State, msg: AppendMsg)
    requires Inv(c) && (StoredStep(c, c', msg) || LocalStep(c, c', msg.to))
    ensures Inv(c') && Evolves(c, c')
  {
    if LocalStep(c, c', msg.to) {
      LocalStepKeeps(c, c', msg.to);
    } else {
      StoredKeeps(c, c', msg);
    }
  }
}
