/** Pre-votes, candidacies, votes and lost terms keep the invariant. */
module ElectionSteps {
  import opened RaftTypes
  import opened LogOps
  import opened NodeModel
  import opened Cluster
  import opened Invariants
  import opened Evolution
  import opened QuietSteps

  lemma LoseTermShape(c: State, p: NodeId, term: nat)
    requires p in c.nodes && NodesOk(c.nodes) && ProgressInv(c.nodes, c.h)
    ensures LocalStep(c, DoLoseTerm(c, p, term), p)
  {
    assert ProgressOk(c.h, c.nodes[p]);
  }

  lemma AskVotesShape(c: State, p: NodeId)
    requires p in c.nodes && NodesOk(c.nodes) && ProgressInv(c.nodes, c.h)
    requires VoteInv(c.nodes, c.net, c.h) && CandidatesCarry(c.nodes, c.h)
    ensures var c' := DoAskVotes(c, p);
      && QuietStep(c, c', p) && ProgressOk(c'.h, c'.nodes[p])
      && VoteInv(c'.nodes, c'.net, c'.h) && CandidatesCarry(c'.nodes, c'.h)
  {
    assert c.nodes == c.nodes[p := c.nodes[p]];
    assert Configured(c.nodes, p) && ProgressOk(c.h, c.nodes[p]);
  }

  lemma AskVotesKeeps(c: State, p: NodeId)
    requires Inv(c) && p in c.nodes
    ensures Inv(DoAskVotes(c, p)) && Evolves(c, DoAskVotes(c, p))
  {
    AskVotesShape(c, p);
    UncommittingKeeps(c, DoAskVotes(c, p), p);
  }

  // ---- Standing for election ----

  lemma NoVoteBeyondTerm(c: State, p: NodeId, t: nat)
    requires VoteInv(c.nodes, c.net, c.h) && p in c.nodes && t > c.nodes[p].term
    ensures (p, t) !in c.h.votes
  {
  }

  lemma StandVotes(c: State, p: NodeId)
    requires VoteInv(c.nodes, c.net, c.h) && p in c.nodes && c.nodes[p].id == p
    ensures var c' := DoStandForElection(c, p);
      VoteInv(c'.nodes, c'.net, c'.h) && VotesGrow(c.h, c'.h)
  {
    var c' := DoStandForElection(c, p);
    var t' := c'.nodes[p].term;
    NoVoteBeyondTerm(c, p, t');
    forall q, t | (q, t) in c'.h.votes ensures VoteRecorded(c'.nodes, c'.h, q, t) {
      if (q, t) != (p, t') { assert VoteRecorded(c.nodes, c.h, q, t); }
    }
    forall q | q in c'.nodes ensures NodeVote(c'.h, c'.nodes[q]) {
      if q != p { assert NodeVote(c.h, c.nodes[q]); }
    }
    forall req | req in c'.net.voteReqs ensures VoteAsked(c'.nodes, req) {
      assert VoteAsked(c.nodes, req);
    }
  }

  /** Nobody else has voted for a node in a term it has not reached. */
  lemma OnlyOwnVote(c: State, p: NodeId, v: NodeId)
    requires VoteInv(c.nodes, c.net, c.h) && p in c.nodes
    requires (v, c.nodes[p].term + 1) in c.h.votes
    ensures c.h.votes[(v, c.nodes[p].term + 1)] != p
  {
    assert VoteRecorded(c.nodes, c.h, v, c.nodes[p].term + 1);
  }

  lemma StandCandidate(c: State, p: NodeId)
    requires VoteInv(c.nodes, c.net, c.h) && NodesCarry(c.nodes, c.h) && p in c.nodes
    requires QuietStep(c, DoStandForElection(c, p), p)
    ensures var c' := DoStandForElection(c, p); CandidateCarries(c'.nodes, c'.h, p)
  {
    var c' := DoStandForElection(c, p);
    forall v: NodeId, t: nat, m: nat |
      && (v, c'.nodes[p].term) in c'.h.votes && c'.h.votes[(v, c'.nodes[p].term)] == p
      && t < c'.nodes[p].term && OwnEntry(c'.h, t, m) && Ack(c'.h, v, t) >= m
      ensures Carries(c'.nodes, c'.h, c'.nodes[p].log, t, m)
    {
      if v != p { OnlyOwnVote(c, p, v); }
      assert OwnEntry(c.h, t, m) && Ack(c.h, p, t) >= m;
      CarriesStays(c, c', c.nodes[p].log, t, m);
    }
  }

  lemma StandCandidates(c: State, p: NodeId)
    requires VoteInv(c.nodes, c.net, c.h) && NodesCarry(c.nodes, c.h) && CandidatesCarry(c.nodes, c.h)
    requires p in c.nodes && QuietStep(c, DoStandForElection(c, p), p)
    ensures var c' := DoStandForElection(c, p); CandidatesCarry(c'.nodes, c'.h)
  {
    var c' := DoStandForElection(c, p);
    forall q | q in c'.nodes && c'.nodes[q].role.Candidate? ensures CandidateCarries(c'.nodes, c'.h, q) {
      if q == p { StandCandidate(c, p); } else { CandidateStays(c, c', p, q); }
    }
  }

  lemma StandKeeps(c: State, p: NodeId)
    requires Inv(c) && p in c.nodes
    ensures Inv(DoStandForElection(c, p)) && Evolves(c, DoStandForElection(c, p))
  {
    var c' := DoStandForElection(c, p);
    assert Configured(c.nodes, p);
    StandVotes(c, p);
    assert QuietStep(c, c', p);
    StandCandidates(c, p);
    UncommittingKeeps(c, c', p);
  }

  // ---- Voting ----

  /**
    A candidate whose log is at least as up to date as the voter's carries
    everything the voter's log carries.
   */
  lemma UpToDateCarries(nodes: Nodes, h: History, log: Log, cand: Log, t: nat, m: nat)
    requires forall term: nat | term in h.logs :: Anchored(h.logs, h.logs[term]) && TermsUpTo(h.logs[term], term)
    requires LeadersCarry(nodes, h)
    requires Anchored(h.logs, log) && Anchored(h.logs, cand)
    requires OwnEntry(h, t, m) && Agree(log, h.logs[t], m)
    requires IsLogAtLeastUpToDate(|cand|, LastTerm(cand), |log|, LastTerm(log))
    ensures Carries(nodes, h, cand, t, m)
  {
    AgreeAt(log, h.logs[t], m, m - 1);
    TermsNeverDecrease(h, log, m - 1, |log| - 1);
    assert TermsUpTo(h.logs[t], t);
    var last := LastTerm(cand);
    assert last >= LastTerm(log) >= t > 0;
    assert AnchoredAt(h.logs, cand, |cand| - 1);
    if last == t {
      AgreeShorter(cand, h.logs[t], |cand|, m);
    } else {
      assert Carries(nodes, h, h.logs[last], t, m);
      if Agree(h.logs[last], h.logs[t], m) {
        LaterLastEntryIsLonger(h, cand, t, m);
        AgreeShorter(cand, h.logs[last], |cand|, m);
      }
    }
  }

  lemma LaterLastEntryIsLonger(h: History, cand: Log, t: nat, m: nat)
    requires forall term: nat | term in h.logs :: Anchored(h.logs, h.logs[term]) && TermsUpTo(h.logs[term], term)
    requires |cand| > 0 && Anchored(h.logs, cand) && LastTerm(cand) > t && LastTerm(cand) in h.logs
    requires OwnEntry(h, t, m) && Agree(h.logs[LastTerm(cand)], h.logs[t], m)
    ensures m <= |cand|
  {
    var g := h.logs[LastTerm(cand)];
    assert AnchoredAt(h.logs, cand, |cand| - 1);
    AgreeAt(cand, g, |cand|, |cand| - 1);
    AgreeAt(g, h.logs[t], m, m - 1);
    if m > |cand| {
      TermsNeverDecrease(h, g, |cand| - 1, m - 1);
    }
  }

  lemma GiveVoteShape(c: State, p: NodeId, req: VoteRequest)
    requires NodesOk(c.nodes) && VoteInv(c.nodes, c.net, c.h) && p in c.nodes && ProgressInv(c.nodes, c.h)
    requires req in c.net.voteReqs
    ensures var c' := DoGiveVote(c, p, req);
      QuietStep(c, c', p) && NothingCommitted(c, c', p) && ProgressOk(c'.h, c'.nodes[p])
  {
    var c' := DoGiveVote(c, p, req);
    var (s', reply) := AnswerVote(c.nodes[p], req);
    assert Configured(c.nodes, p) && ProgressOk(c.h, c.nodes[p]);
    if reply.granted && (p, req.term) in c.h.votes {
      assert VoteRecorded(c.nodes, c.h, p, req.term);
      assert Configured(c.nodes, c.h.votes[(p, req.term)]);
    }
    assert NodeVote(c.h, c.nodes[p]);
  }

  lemma GiveVoteVotes(c: State, p: NodeId, req: VoteRequest)
    requires NodesOk(c.nodes) && VoteInv(c.nodes, c.net, c.h) && p in c.nodes
    requires req in c.net.voteReqs
    requires QuietStep(c, DoGiveVote(c, p, req), p)
    ensures var c' := DoGiveVote(c, p, req); VoteInv(c'.nodes, c'.net, c'.h)
  {
    var c' := DoGiveVote(c, p, req);
    assert Configured(c.nodes, p) && NodeVote(c.h, c.nodes[p]) && VoteAsked(c.nodes, req);
    assert Configured(c.nodes, req.candidate);
    forall q, t | (q, t) in c'.h.votes ensures VoteRecorded(c'.nodes, c'.h, q, t) {
      if (q, t) in c.h.votes { assert VoteRecorded(c.nodes, c.h, q, t); }
    }
    forall q | q in c'.nodes ensures NodeVote(c'.h, c'.nodes[q]) {
      assert NodeVote(c.h, c.nodes[q]);
    }
    forall r | r in c'.net.voteReqs ensures VoteAsked(c'.nodes, r) {
      assert VoteAsked(c.nodes, r);
    }
  }

  /** The vote just given goes to a candidate that carries what the voter acknowledged. */
  lemma NewVoteCarries(c: State, p: NodeId, req: VoteRequest, t: nat, m: nat)
    requires LogInv(c.nodes, c.h) && LeadersCarry(c.nodes, c.h) && NodesCarry(c.nodes, c.h)
    requires p in c.nodes && req.candidate in c.nodes
    requires req == ElectionRequest(c.nodes[req.candidate], req.term)
    requires IsFreshEnough(c.nodes[p], req)
    requires OwnEntry(c.h, t, m) && Ack(c.h, p, t) >= m
    ensures Carries(c.nodes, c.h, c.nodes[req.candidate].log, t, m)
  {
    assert Carries(c.nodes, c.h, c.nodes[p].log, t, m);
    if Agree(c.nodes[p].log, c.h.logs[t], m) {
      UpToDateCarries(c.nodes, c.h, c.nodes[p].log, c.nodes[req.candidate].log, t, m);
    }
  }

  lemma GiveVoteCandidate(c: State, p: NodeId, req: VoteRequest, q: NodeId, v: NodeId, t: nat, m: nat)
    requires LogInv(c.nodes, c.h) && LeadersCarry(c.nodes, c.h) && NodesCarry(c.nodes, c.h)
    requires p in c.nodes && VoteAsked(c.nodes, req)
    requires q in c.nodes && c.nodes[q].role.Candidate? && CandidateCarries(c.nodes, c.h, q)
    requires var c' := DoGiveVote(c, p, req);
      (v, c.nodes[q].term) in c'.h.votes && c'.h.votes[(v, c.nodes[q].term)] == q
    requires t < c.nodes[q].term && OwnEntry(c.h, t, m) && Ack(c.h, v, t) >= m
    ensures Carries(c.nodes, c.h, c.nodes[q].log, t, m)
  {
    if !((v, c.nodes[q].term) in c.h.votes && c.h.votes[(v, c.nodes[q].term)] == q) {
      assert v == p && req.candidate == q && req.term == c.nodes[q].term;
      NewVoteCarries(c, p, req, t, m);
    }
  }

  lemma GiveVoteCandidates(c: State, p: NodeId, req: VoteRequest)
    requires LogInv(c.nodes, c.h) && LeadersCarry(c.nodes, c.h) && NodesCarry(c.nodes, c.h)
    requires CandidatesCarry(c.nodes, c.h)
    requires p in c.nodes && VoteAsked(c.nodes, req)
    requires QuietStep(c, DoGiveVote(c, p, req), p)
    ensures var c' := DoGiveVote(c, p, req); CandidatesCarry(c'.nodes, c'.h)
  {
    var c' := DoGiveVote(c, p, req);
    forall q | q in c'.nodes && c'.nodes[q].role.Candidate? ensures CandidateCarries(c'.nodes, c'.h, q) {
      forall v: NodeId, t: nat, m: nat |
        && (v, c'.nodes[q].term) in c'.h.votes && c'.h.votes[(v, c'.nodes[q].term)] == q
        && t < c'.nodes[q].term && OwnEntry(c'.h, t, m) && Ack(c'.h, v, t) >= m
        ensures Carries(c'.nodes, c'.h, c'.nodes[q].log, t, m)
      {
        assert OwnEntry(c.h, t, m) && Ack(c.h, v, t) >= m;
        GiveVoteCandidate(c, p, req, q, v, t, m);
        CarriesStays(c, c', c.nodes[q].log, t, m);
      }
    }
  }

  lemma GiveVoteKeeps(c: State, p: NodeId, req: VoteRequest)
    requires Inv(c) && p in c.nodes && req in c.net.voteReqs
    ensures Inv(DoGiveVote(c, p, req)) && Evolves(c, DoGiveVote(c, p, req))
  {
    var c' := DoGiveVote(c, p, req);
    GiveVoteShape(c, p, req);
    GiveVoteVotes(c, p, req);
    GiveVoteCandidates(c, p, req);
    UncommittingKeeps(c, c', p);
  }
}
