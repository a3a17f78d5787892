/** What holds in every reachable state of the cluster. */
module Invariants {
  import opened RaftTypes
  import opened LogOps
  import opened NodeModel
  import opened Cluster

  // ---- Quorums ----

  ghost predicate Quorum(members: set<NodeId>, q: set<NodeId>) {
    q <= members && 2 * |q| > |members|
  }

  ghost predicate VotedBy(h: History, q: set<NodeId>, term: nat, leader: NodeId) {
    forall p | p in q :: (p, term) in h.votes && h.votes[(p, term)] == leader
  }

  ghost predicate Elected(members: set<NodeId>, h: History, term: nat, leader: NodeId) {
    exists q :: Quorum(members, q) && VotedBy(h, q, term, leader)
  }

  ghost predicate AckedBy(h: History, q: set<NodeId>, term: nat, m: nat) {
    forall p | p in q :: Ack(h, p, term) >= m
  }

  /** A majority has stored the first m entries of the term's log, in that term. */
  ghost predicate AckQuorum(members: set<NodeId>, h: History, term: nat, m: nat) {
    exists q :: Quorum(members, q) && AckedBy(h, q, term, m)
  }

  ghost predicate PassedBy(nodes: Nodes, h: History, q: set<NodeId>, term: nat, m: nat)
    requires q <= nodes.Keys
  {
    forall p | p in q :: nodes[p].term > term && Ack(h, p, term) < m
  }

  /** A majority has left the term without storing m entries of it: no majority ever will. */
  ghost predicate Blocked(nodes: Nodes, h: History, term: nat, m: nat) {
    exists q :: Quorum(nodes.Keys, q) && PassedBy(nodes, h, q, term, m)
  }

  // ---- Elections ----

  ghost predicate VoteRecorded(nodes: Nodes, h: History, p: NodeId, term: nat)
    requires (p, term) in h.votes
  {
    var v := h.votes[(p, term)];
    && p in nodes && term <= nodes[p].term
    && v in nodes && term <= nodes[v].term
    && (term == nodes[p].term ==> nodes[p].votedFor == v)
  }

  ghost predicate NodeVote(h: History, s: NodeState) {
    && (s.votedFor != NONE ==> (s.id, s.term) in h.votes && h.votes[(s.id, s.term)] == s.votedFor)
    && (!s.role.Follower? ==> s.votedFor == s.id && s.term > 0)
  }

  ghost predicate VoteAsked(nodes: Nodes, req: VoteRequest) {
    && req.candidate in nodes
    && req.term <= nodes[req.candidate].term
    && (nodes[req.candidate].role.Candidate? && nodes[req.candidate].term == req.term ==>
          req == ElectionRequest(nodes[req.candidate], req.term))
  }

  ghost predicate VoteInv(nodes: Nodes, net: Network, h: History) {
    && (forall p, term | (p, term) in h.votes :: VoteRecorded(nodes, h, p, term))
    && (forall p | p in nodes :: NodeVote(h, nodes[p]))
    && (forall req | req in net.voteReqs :: VoteAsked(nodes, req))
    && (forall r | r in net.voteReps && r.reply.granted ::
          (r.voter, r.req.term) in h.votes && h.votes[(r.voter, r.req.term)] == r.req.candidate)
  }

  ghost predicate LeaderOfTerm(nodes: Nodes, h: History, term: nat)
    requires term in h.leaders
  {
    var l := h.leaders[term];
    && l in nodes && 0 < term <= nodes[l].term
    && (term == nodes[l].term ==> !nodes[l].role.Candidate?)
    && Elected(nodes.Keys, h, term, l)
  }

  ghost predicate LeadsTerm(h: History, s: NodeState) {
    s.role.Leader? ==>
      && s.term in h.leaders && h.leaders[s.term] == s.id
      && s.term in h.logs && h.logs[s.term] == s.log
  }

  ghost predicate LeaderInv(nodes: Nodes, h: History) {
    && h.leaders.Keys == h.logs.Keys
    && (forall term | term in h.leaders :: LeaderOfTerm(nodes, h, term))
    && (forall p | p in nodes :: LeadsTerm(h, nodes[p]))
  }

  // ---- Logs ----

  /** Entry i came from the leader of its term, and so did everything before it. */
  ghost predicate AnchoredAt(logs: map<nat, Log>, log: Log, i: nat)
    requires i < |log|
  {
    && log[i].index == i + 1
    && log[i].term in logs
    && Agree(log, logs[log[i].term], i + 1)
  }

  ghost predicate Anchored(logs: map<nat, Log>, log: Log) {
    forall i | 0 <= i < |log| :: AnchoredAt(logs, log, i)
  }

  ghost predicate TermsUpTo(log: Log, term: nat) {
    forall i | 0 <= i < |log| :: 0 < log[i].term <= term
  }

  ghost predicate LogInv(nodes: Nodes, h: History) {
    && (forall p | p in nodes :: Anchored(h.logs, nodes[p].log) && TermsUpTo(nodes[p].log, nodes[p].term))
    && (forall term | term in h.logs :: Anchored(h.logs, h.logs[term]) && TermsUpTo(h.logs[term], term))
  }

  // ---- Replication ----

  ghost predicate AckRecorded(nodes: Nodes, h: History, p: NodeId, term: nat)
    requires (p, term) in h.acked
  {
    && p in nodes && term <= nodes[p].term
    && term in h.logs && h.acked[(p, term)] <= |h.logs[term]|
    && (term == nodes[p].term ==> Agree(nodes[p].log, h.logs[term], h.acked[(p, term)]))
  }

  ghost predicate AckInv(nodes: Nodes, h: History) {
    && (forall p, term | (p, term) in h.acked :: AckRecorded(nodes, h, p, term))
    && (forall p | p in nodes && nodes[p].role.Leader? :: Ack(h, p, nodes[p].term) == |nodes[p].log|)
  }

  /** The request carries the whole rest of the log its leader had, from prevIndex on. */
  ghost predicate RequestOk(h: History, r: AppendRequest) {
    && r.term in h.leaders && h.leaders[r.term] == r.leader
    && r.term in h.logs && r.Last() <= |h.logs[r.term]|
    && r.entries == h.logs[r.term][r.prevIndex..r.Last()]
    && r.prevTerm == TermIn(h.logs[r.term], r.prevIndex)
    && r.leaderCommit <= r.Last()
    && CommittedBy(h, h.logs[r.term][..r.leaderCommit], r.term)
  }

  ghost predicate NetInv(nodes: Nodes, net: Network, h: History) {
    && (forall msg | msg in net.appends :: msg.to in nodes && msg.to != msg.req.leader && RequestOk(h, msg.req))
    && (forall rec | rec in net.appendReps && rec.reply.success ::
          RequestOk(h, rec.req) && Ack(h, rec.from, rec.req.term) >= rec.req.Last())
  }

  /** The progress maps exist exactly at a leader, for exactly its peers, within the log. */
  ghost predicate ProgressOk(h: History, s: NodeState) {
    && (s.role.Leader? <==> s.nextIndex.Some?) && (s.role.Leader? <==> s.matchIndex.Some?)
    && (s.role.Leader? ==>
          && s.nextIndex.value.Keys == PeerSet(s.peers) && s.matchIndex.value.Keys == PeerSet(s.peers)
          && forall q | q in s.peers ::
               && 1 <= s.nextIndex.value[q] <= |s.log| + 1
               && s.matchIndex.value[q] <= Ack(h, q, s.term))
  }

  ghost predicate ProgressInv(nodes: Nodes, h: History) {
    forall p | p in nodes :: ProgressOk(h, nodes[p])
  }

  // ---- Commitment ----

  /** Position m of the term's log holds an entry of that very term. */
  ghost predicate OwnEntry(h: History, term: nat, m: nat) {
    term in h.logs && 0 < m <= |h.logs[term]| && h.logs[term][m - 1].term == term
  }

  /** The log holds the first m entries of the term's log, unless they can never be committed. */
  ghost predicate Carries(nodes: Nodes, h: History, log: Log, term: nat, m: nat)
    requires term in h.logs
  {
    Agree(log, h.logs[term], m) || Blocked(nodes, h, term, m)
  }

  /** Leaders of later terms carry what may be committed in earlier ones. */
  ghost predicate LeadersCarry(nodes: Nodes, h: History) {
    forall term: nat, later: nat, m: nat | term < later && later in h.logs && OwnEntry(h, term, m) ::
      Carries(nodes, h, h.logs[later], term, m)
  }

  /** Nodes carry what they have acknowledged. */
  ghost predicate NodesCarry(nodes: Nodes, h: History) {
    forall p: NodeId, term: nat, m: nat | p in nodes && OwnEntry(h, term, m) && Ack(h, p, term) >= m ::
      Carries(nodes, h, nodes[p].log, term, m)
  }

  /** A candidate carries what each of its voters has acknowledged. */
  ghost predicate CandidateCarries(nodes: Nodes, h: History, c: NodeId)
    requires c in nodes
  {
    forall p: NodeId, term: nat, m: nat |
      && (p, nodes[c].term) in h.votes && h.votes[(p, nodes[c].term)] == c
      && term < nodes[c].term && OwnEntry(h, term, m) && Ack(h, p, term) >= m ::
      Carries(nodes, h, nodes[c].log, term, m)
  }

  ghost predicate CandidatesCarry(nodes: Nodes, h: History) {
    forall c | c in nodes && nodes[c].role.Candidate? :: CandidateCarries(nodes, h, c)
  }

  /** The prefix was committed by the leader of some term up to `term`. */
  ghost predicate CommittedBy(h: History, prefix: Log, term: nat) {
    |prefix| == 0 || exists t :: CommittedIn(h, prefix, term, t)
  }

  ghost predicate CommittedIn(h: History, prefix: Log, term: nat, t: nat) {
    t in h.committed && t <= term && t in h.logs && |prefix| <= h.committed[t] && Agree(prefix, h.logs[t], |prefix|)
  }

  ghost predicate CommitRecorded(members: set<NodeId>, h: History, t: nat)
    requires t in h.committed
  {
    OwnEntry(h, t, h.committed[t]) && AckQuorum(members, h, t, h.committed[t])
  }

  ghost predicate CommitInv(nodes: Nodes, h: History) {
    && (forall t | t in h.committed :: CommitRecorded(nodes.Keys, h, t))
    && (forall p | p in nodes ::
          nodes[p].commit <= |nodes[p].log| && CommittedBy(h, nodes[p].log[..nodes[p].commit], nodes[p].term))
  }

  /** The committed log extends, and is, what some leader has committed. */
  ghost predicate ClogInv(h: History) {
    && (forall t | t in h.committed :: t in h.logs && Agree(h.logs[t], h.clog, h.committed[t]))
    && (|h.clog| == 0 || exists t :: t in h.committed && h.committed[t] == |h.clog|)
  }

  ghost predicate NodesOk(nodes: Nodes) {
    forall p | p in nodes :: Configured(nodes, p) && nodes[p].base <= nodes[p].applied <= nodes[p].commit
  }

  ghost predicate Inv(c: State) {
    && NodesOk(c.nodes)
    && VoteInv(c.nodes, c.net, c.h)
    && LeaderInv(c.nodes, c.h)
    && LogInv(c.nodes, c.h)
    && AckInv(c.nodes, c.h)
    && NetInv(c.nodes, c.net, c.h)
    && ProgressInv(c.nodes, c.h)
    && LeadersCarry(c.nodes, c.h)
    && NodesCarry(c.nodes, c.h)
    && CandidatesCarry(c.nodes, c.h)
    && CommitInv(c.nodes, c.h)
    && ClogInv(c.h)
  }
}
