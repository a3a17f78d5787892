/** How the cluster may change in one step, and what such changes cannot undo. */
module Evolution {
  import opened RaftTypes
  import opened LogOps
  import opened Cluster
  import opened Invariants

  /** Two majorities of the same members share a node. */
  lemma QuorumsMeet(members: set<NodeId>, q1: set<NodeId>, q2: set<NodeId>) returns (p: NodeId)
    requires Quorum(members, q1) && Quorum(members, q2)
    ensures p in q1 && p in q2
  {
    Smaller(q1 + q2, members);
    assert |q1 + q2| == |q1| + |q2| - |q1 * q2|;
    p :| p in q1 * q2;
  }

  lemma {:induction false} Smaller<T>(a: set<T>, b: set<T>)
    requires a <= b
    ensures |a| <= |b|
  {
    assert b == a + (b - a);
  }

  ghost predicate TermsGrow(nodes: Nodes, nodes': Nodes) {
    nodes'.Keys == nodes.Keys && forall p | p in nodes :: nodes[p].term <= nodes'[p].term
  }

  /** The log of a term only grows, and only by entries of that term. */
  ghost predicate LogGrows(term: nat, log: Log, log': Log) {
    log <= log' && forall i | |log| <= i < |log'| :: log'[i].term == term
  }

  ghost predicate LogsGrow(h: History, h': History) {
    forall t: nat | t in h.logs :: t in h'.logs && LogGrows(t, h.logs[t], h'.logs[t])
  }

  /** A node acknowledges nothing more of a term it has left. */
  ghost predicate AcksGrow(nodes: Nodes, h: History, h': History) {
    forall p: NodeId, t: nat ::
      Ack(h, p, t) <= Ack(h', p, t) && (Ack(h, p, t) < Ack(h', p, t) && p in nodes ==> nodes[p].term <= t)
  }

  ghost predicate VotesGrow(h: History, h': History) {
    forall k | k in h.votes :: k in h'.votes && h'.votes[k] == h.votes[k]
  }

  ghost predicate LeadersGrow(h: History, h': History) {
    forall t | t in h.leaders :: t in h'.leaders && h'.leaders[t] == h.leaders[t]
  }

  ghost predicate CommitsGrow(h: History, h': History) {
    && (forall t | t in h.committed :: t in h'.committed && h.committed[t] <= h'.committed[t])
    && h.clog <= h'.clog
  }

  ghost predicate Evolves(c: State, c': State) {
    && TermsGrow(c.nodes, c'.nodes)
    && LogsGrow(c.h, c'.h)
    && AcksGrow(c.nodes, c.h, c'.h)
    && VotesGrow(c.h, c'.h)
    && LeadersGrow(c.h, c'.h)
    && CommitsGrow(c.h, c'.h)
  }

  lemma EvolvesTransitively(c: State, c1: State, c2: State)
    requires Evolves(c, c1) && Evolves(c1, c2)
    ensures Evolves(c, c2)
  {
    LogsGrowTransitively(c.h, c1.h, c2.h);
    AcksGrowTransitively(c, c1, c2);
  }

  lemma LogsGrowTransitively(h: History, h1: History, h2: History)
    requires LogsGrow(h, h1) && LogsGrow(h1, h2)
    ensures LogsGrow(h, h2)
  {
    forall t: nat | t in h.logs ensures t in h2.logs && LogGrows(t, h.logs[t], h2.logs[t]) {
      assert LogGrows(t, h.logs[t], h1.logs[t]) && LogGrows(t, h1.logs[t], h2.logs[t]);
    }
  }

  lemma AcksGrowTransitively(c: State, c1: State, c2: State)
    requires TermsGrow(c.nodes, c1.nodes) && AcksGrow(c.nodes, c.h, c1.h) && AcksGrow(c1.nodes, c1.h, c2.h)
    ensures AcksGrow(c.nodes, c.h, c2.h)
  {
    forall p: NodeId, t: nat
      ensures Ack(c.h, p, t) <= Ack(c2.h, p, t)
      ensures Ack(c.h, p, t) < Ack(c2.h, p, t) && p in c.nodes ==> c.nodes[p].term <= t
    {
      assert Ack(c.h, p, t) <= Ack(c1.h, p, t) <= Ack(c2.h, p, t);
    }
  }

  lemma BlockedStays(c: State, c': State, t: nat, m: nat)
    requires TermsGrow(c.nodes, c'.nodes) && AcksGrow(c.nodes, c.h, c'.h)
    requires Blocked(c.nodes, c.h, t, m)
    ensures Blocked(c'.nodes, c'.h, t, m)
  {
    var q :| Quorum(c.nodes.Keys, q) && PassedBy(c.nodes, c.h, q, t, m);
    forall p | p in q ensures c'.nodes[p].term > t && Ack(c'.h, p, t) < m {
      assert Ack(c.h, p, t) <= Ack(c'.h, p, t);
    }
    assert PassedBy(c'.nodes, c'.h, q, t, m);
  }

  lemma AgreeGrows(log: Log, g: Log, g': Log, m: nat)
    requires g <= g' && Agree(log, g, m)
    ensures Agree(log, g', m)
  {
    assert g'[..m] == g[..m];
  }

  lemma CarriesStays(c: State, c': State, log: Log, t: nat, m: nat)
    requires TermsGrow(c.nodes, c'.nodes) && AcksGrow(c.nodes, c.h, c'.h) && LogsGrow(c.h, c'.h)
    requires t in c.h.logs && Carries(c.nodes, c.h, log, t, m)
    ensures Carries(c'.nodes, c'.h, log, t, m)
  {
    if Agree(log, c.h.logs[t], m) {
      AgreeGrows(log, c.h.logs[t], c'.h.logs[t], m);
    } else {
      BlockedStays(c, c', t, m);
    }
  }

  lemma CommittedByStays(h: History, h': History, prefix: Log, term: nat, term': nat)
    requires LogsGrow(h, h') && CommitsGrow(h, h') && term <= term'
    requires CommittedBy(h, prefix, term)
    ensures CommittedBy(h', prefix, term')
  {
    if |prefix| > 0 {
      var t :| CommittedIn(h, prefix, term, t);
      AgreeGrows(prefix, h.logs[t], h'.logs[t], |prefix|);
      assert CommittedIn(h', prefix, term', t);
    }
  }

  lemma ElectedStays(members: set<NodeId>, h: History, h': History, term: nat, l: NodeId)
    requires VotesGrow(h, h') && Elected(members, h, term, l)
    ensures Elected(members, h', term, l)
  {
    var q :| Quorum(members, q) && VotedBy(h, q, term, l);
    assert VotedBy(h', q, term, l);
  }

  lemma AckQuorumStays(members: set<NodeId>, nodes: Nodes, h: History, h': History, t: nat, m: nat)
    requires AcksGrow(nodes, h, h') && AckQuorum(members, h, t, m)
    ensures AckQuorum(members, h', t, m)
  {
    var q :| Quorum(members, q) && AckedBy(h, q, t, m);
    forall p | p in q ensures Ack(h', p, t) >= m {
      assert Ack(h, p, t) <= Ack(h', p, t);
    }
    assert AckedBy(h', q, t, m);
  }

  /** A point that a majority stored cannot be blocked. */
  lemma QuorumNotBlocked(nodes: Nodes, h: History, t: nat, m: nat)
    requires AckQuorum(nodes.Keys, h, t, m)
    ensures !Blocked(nodes, h, t, m)
  {
    if Blocked(nodes, h, t, m) {
      var q1 :| Quorum(nodes.Keys, q1) && AckedBy(h, q1, t, m);
      var q2 :| Quorum(nodes.Keys, q2) && PassedBy(nodes, h, q2, t, m);
      var p := QuorumsMeet(nodes.Keys, q1, q2);
    }
  }

  lemma RequestStays(h: History, h': History, r: AppendRequest)
    requires LogsGrow(h, h') && CommitsGrow(h, h') && LeadersGrow(h, h')
    requires RequestOk(h, r)
    ensures RequestOk(h', r)
  {
    var g, g' := h.logs[r.term], h'.logs[r.term];
    assert g'[r.prevIndex..r.Last()] == g[r.prevIndex..r.Last()];
    assert g'[..r.leaderCommit] == g[..r.leaderCommit];
    CommittedByStays(h, h', g[..r.leaderCommit], r.term, r.term);
  }

  lemma AnchoredStays(h: History, h': History, log: Log)
    requires LogsGrow(h, h') && Anchored(h.logs, log)
    ensures Anchored(h'.logs, log)
  {
    forall i | 0 <= i < |log| ensures AnchoredAt(h'.logs, log, i) {
      assert AnchoredAt(h.logs, log, i);
      AgreeGrows(log, h.logs[log[i].term], h'.logs[log[i].term], i + 1);
    }
  }

  /** Terms along an anchored log never decrease. */
  lemma TermsNeverDecrease(h: History, log: Log, i: nat, j: nat)
    requires Anchored(h.logs, log) && i <= j < |log|
    requires forall term: nat | term in h.logs :: TermsUpTo(h.logs[term], term)
    ensures log[i].term <= log[j].term
  {
    assert AnchoredAt(h.logs, log, j);
    var g := h.logs[log[j].term];
    AgreeAt(log, g, j + 1, i);
    assert TermsUpTo(g, log[j].term);
  }

  /** Two anchored logs that hold the same term at an index agree up to it. */
  lemma AnchoredLogsMatch(h: History, a: Log, b: Log)
    requires Anchored(h.logs, a) && Anchored(h.logs, b)
    ensures LogMatching(a, b)
  {
    forall i | 0 <= i < |a| && i < |b| && a[i].term == b[i].term ensures a[..i + 1] == b[..i + 1] {
      assert AnchoredAt(h.logs, a, i) && AnchoredAt(h.logs, b, i);
    }
  }
}
