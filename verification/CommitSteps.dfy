/** The commit rule: what it computes, and why what it commits is never lost. */
module CommitSteps {
  import opened RaftTypes
  import opened LogOps
  import opened NodeModel
  import opened Cluster
  import opened Invariants
  import opened Evolution
  import opened QuietSteps

  // ---- Counting ----

  lemma {:induction false} PeerCount(peers: seq<NodeId>)
    requires NoDuplicates(peers)
    ensures |PeerSet(peers)| == |peers|
  {
    if |peers| > 0 {
      var rest := peers[..|peers| - 1];
      PeerCount(rest);
      assert PeerSet(peers) == PeerSet(rest) + {peers[|peers| - 1]};
    }
  }

  function HolderSet(peers: seq<NodeId>, matchIndex: Progress, index: nat): set<NodeId> {
    set q | q in peers && Lookup(matchIndex, q) >= index
  }

  lemma OneMoreHolder(rest: seq<NodeId>, last: NodeId, matchIndex: Progress, index: nat)
    requires last !in rest
    ensures |HolderSet(rest + [last], matchIndex, index)|
      == |HolderSet(rest, matchIndex, index)| + if Lookup(matchIndex, last) >= index then 1 else 0
  {
    var added := if Lookup(matchIndex, last) >= index then {last} else {};
    assert HolderSet(rest + [last], matchIndex, index) == HolderSet(rest, matchIndex, index) + added;
  }

  lemma {:induction false} HoldersCount(peers: seq<NodeId>, matchIndex: Progress, index: nat)
    requires NoDuplicates(peers)
    ensures Holders(peers, matchIndex, index) == |HolderSet(peers, matchIndex, index)|
  {
    if |peers| > 0 {
      var rest, last := peers[..|peers| - 1], peers[|peers| - 1];
      HoldersCount(rest, matchIndex, index);
      assert last !in rest && peers == rest + [last];
      OneMoreHolder(rest, last, matchIndex, index);
    }
  }

  lemma PeersAndSelf(nodes: Nodes, p: NodeId)
    requires p in nodes && Configured(nodes, p)
    ensures |nodes.Keys| == |nodes[p].peers| + 1
  {
    PeerCount(nodes[p].peers);
    assert nodes.Keys == PeerSet(nodes[p].peers) + {p};
  }

  /**
    The loop finds the greatest index above the commit index that holds a
    current-term entry and that a majority is known to store, if there is one.
   */
  lemma {:induction false} CommitFromExact(s: NodeState, index: nat)
    ensures var r := CommitFrom(s, index);
      && (r > s.commit ==> Committable(s, r))
      && (forall i | Max(s.commit, r) < i <= index :: !Committable(s, i))
  {
    if index > s.commit && !Committable(s, index) {
      CommitFromExact(s, index - 1);
    }
  }

  /** A committable index of a leader is one that a majority has stored in the leader's term. */
  lemma CommittableIsAcked(nodes: Nodes, h: History, p: NodeId, i: nat)
    requires p in nodes && Configured(nodes, p) && ProgressOk(h, nodes[p]) && LeadsTerm(h, nodes[p])
    requires nodes[p].role.Leader? && Ack(h, p, nodes[p].term) == |nodes[p].log| && nodes[p].term > 0
    requires 0 < i <= |nodes[p].log| && Committable(nodes[p], i)
    ensures OwnEntry(h, nodes[p].term, i) && AckQuorum(nodes.Keys, h, nodes[p].term, i)
  {
    var s := nodes[p];
    var q := HolderSet(s.peers, s.matchIndex, i) + {p};
    HoldersCount(s.peers, s.matchIndex, i);
    PeersAndSelf(nodes, p);
    assert p !in PeerSet(s.peers);
    assert Quorum(nodes.Keys, q) by {
      assert HolderSet(s.peers, s.matchIndex, i) <= PeerSet(s.peers);
    }
    assert AckedBy(h, q, s.term, i);
  }

  // ---- What is committed stays ----

  /** Every leader of a term, or of a later one, has what the term's leader committed. */
  lemma LeaderHasCommitted(nodes: Nodes, h: History, t: nat, later: nat)
    requires LeadersCarry(nodes, h) && t in h.committed && CommitRecorded(nodes.Keys, h, t)
    requires t <= later && later in h.logs
    ensures Agree(h.logs[later], h.logs[t], h.committed[t])
  {
    if t < later {
      assert Carries(nodes, h, h.logs[later], t, h.committed[t]);
      QuorumNotBlocked(nodes, h, t, h.committed[t]);
    }
  }

  /** A leader of term `later` agrees with any prefix committed up to that term. */
  lemma LeaderHasPrefix(nodes: Nodes, h: History, prefix: Log, term: nat, later: nat)
    requires LeadersCarry(nodes, h) && (forall t | t in h.committed :: CommitRecorded(nodes.Keys, h, t))
    requires CommittedBy(h, prefix, term) && term <= later && later in h.logs
    ensures Agree(h.logs[later], prefix, |prefix|)
  {
    if |prefix| > 0 {
      var t :| CommittedIn(h, prefix, term, t);
      LeaderHasCommitted(nodes, h, t, later);
      AgreeShorter(h.logs[later], h.logs[t], h.committed[t], |prefix|);
    }
  }

  ghost predicate LogsAnchored(h: History) {
    forall term: nat | term in h.logs :: Anchored(h.logs, h.logs[term]) && TermsUpTo(h.logs[term], term)
  }

  /** In a later leader's log, an older leader's entries come before its own. */
  lemma OlderEntriesFirst(h: History, t: nat, i: nat, later: nat, j: nat)
    requires LogsAnchored(h) && t < later && OwnEntry(h, t, i) && OwnEntry(h, later, j)
    requires Agree(h.logs[later], h.logs[t], i)
    ensures i < j
  {
    AgreeAt(h.logs[later], h.logs[t], i, i - 1);
    if j <= i {
      TermsNeverDecrease(h, h.logs[later], j - 1, i - 1);
    }
  }

  /** Two committed points: the shorter prefix is a prefix of the longer. */
  lemma CommittedPointsAgree(nodes: Nodes, h: History, t: nat, i: nat, u: nat, j: nat)
    requires LogsAnchored(h) && LeadersCarry(nodes, h)
    requires OwnEntry(h, t, i) && AckQuorum(nodes.Keys, h, t, i)
    requires OwnEntry(h, u, j) && AckQuorum(nodes.Keys, h, u, j)
    ensures Agree(h.logs[t], h.logs[u], Min(i, j))
  {
    if t < u {
      assert Carries(nodes, h, h.logs[u], t, i);
      QuorumNotBlocked(nodes, h, t, i);
      OlderEntriesFirst(h, t, i, u, j);
    } else if u < t {
      assert Carries(nodes, h, h.logs[t], u, j);
      QuorumNotBlocked(nodes, h, u, j);
      OlderEntriesFirst(h, u, j, t, i);
    }
  }

  // ---- The step ----

  /** The history after the leader of term t commits through index i. */
  ghost function Noted(h: History, t: nat, i: nat): History
    requires t in h.logs && i <= |h.logs[t]|
  {
    h.(committed := h.committed[t := Max(i, if t in h.committed then h.committed[t] else 0)],
       clog := if i > |h.clog| then h.logs[t][..i] else h.clog)
  }

  ghost predicate CommitsOk(nodes: Nodes, h: History) {
    && LogsAnchored(h) && LeadersCarry(nodes, h)
    && (forall t | t in h.committed :: CommitRecorded(nodes.Keys, h, t))
  }

  lemma InvCommitsOk(c: State)
    requires LogInv(c.nodes, c.h) && LeadersCarry(c.nodes, c.h) && CommitInv(c.nodes, c.h)
    ensures CommitsOk(c.nodes, c.h)
  {
  }

  /** A newly committed point agrees with the committed log. */
  lemma NewPointFitsClog(nodes: Nodes, h: History, t: nat, i: nat)
    requires CommitsOk(nodes, h) && ClogInv(h) && OwnEntry(h, t, i) && AckQuorum(nodes.Keys, h, t, i)
    ensures Agree(h.logs[t], h.clog, Min(i, |h.clog|))
  {
    if |h.clog| > 0 {
      var u :| u in h.committed && h.committed[u] == |h.clog|;
      assert CommitRecorded(nodes.Keys, h, u);
      CommittedPointsAgree(nodes, h, t, i, u, |h.clog|);
      assert Agree(h.logs[u], h.clog, |h.clog|);
      AgreeShorter(h.logs[u], h.clog, |h.clog|, Min(i, |h.clog|));
    }
  }

  lemma NotedClogGrows(nodes: Nodes, h: History, t: nat, i: nat)
    requires CommitsOk(nodes, h) && ClogInv(h) && OwnEntry(h, t, i) && AckQuorum(nodes.Keys, h, t, i)
    ensures h.clog <= Noted(h, t, i).clog
    ensures Agree(h.logs[t], Noted(h, t, i).clog, i)
  {
    NewPointFitsClog(nodes, h, t, i);
    if i > |h.clog| {
      assert h.logs[t][..i][..|h.clog|] == h.logs[t][..|h.clog|];
    }
  }

  lemma NotedClogOk(nodes: Nodes, h: History, t: nat, i: nat)
    requires CommitsOk(nodes, h) && ClogInv(h) && OwnEntry(h, t, i) && AckQuorum(nodes.Keys, h, t, i)
    ensures ClogInv(Noted(h, t, i)) && CommitsGrow(h, Noted(h, t, i))
  {
    var h' := Noted(h, t, i);
    NotedClogGrows(nodes, h, t, i);
    forall u | u in h'.committed ensures u in h'.logs && Agree(h'.logs[u], h'.clog, h'.committed[u]) {
      if u != t || h'.committed[u] != i {
        assert Agree(h.logs[u], h.clog, h.committed[u]);
        AgreeGrows(h.logs[u], h.clog, h'.clog, h.committed[u]);
      }
    }
    if i > |h.clog| {
      assert t in h.committed ==> h.committed[t] <= |h.clog|;
      assert h'.committed[t] == |h'.clog|;
    } else if |h.clog| > 0 {
      var u :| u in h.committed && h.committed[u] == |h.clog|;
      assert h'.committed[u] == |h.clog|;
    }
  }

  lemma NotedRecorded(nodes: Nodes, h: History, t: nat, i: nat)
    requires OwnEntry(h, t, i) && AckQuorum(nodes.Keys, h, t, i)
    requires forall u | u in h.committed :: CommitRecorded(nodes.Keys, h, u)
    ensures var h' := Noted(h, t, i); forall u | u in h'.committed :: CommitRecorded(nodes.Keys, h', u)
  {
    var h' := Noted(h, t, i);
    forall u | u in h'.committed ensures CommitRecorded(nodes.Keys, h', u) {
      var m := h'.committed[u];
      assert OwnEntry(h, u, m) && AckQuorum(nodes.Keys, h, u, m) by {
        if u != t || m != i { assert CommitRecorded(nodes.Keys, h, u); }
      }
      AckQuorumStays(nodes.Keys, nodes, h, h', u, m);
    }
  }

  /** Node p learns that its log is committed through i. */
  ghost predicate CommitsAt(c: State, c': State, p: NodeId, i: nat) {
    && p in c.nodes && i <= |c.nodes[p].log|
    && c'.nodes == c.nodes[p := c.nodes[p].(commit := i)]
    && c'.net == c.net
    && LogsGrow(c.h, c'.h) && CommitsGrow(c.h, c'.h)
  }

  lemma NodesStayCommitted(c: State, c': State, p: NodeId, i: nat)
    requires CommitsAt(c, c', p, i) && CommitInv(c.nodes, c.h)
    requires forall t | t in c'.h.committed :: CommitRecorded(c'.nodes.Keys, c'.h, t)
    requires CommittedBy(c'.h, c.nodes[p].log[..i], c.nodes[p].term)
    ensures CommitInv(c'.nodes, c'.h)
  {
    forall q | q in c'.nodes
      ensures c'.nodes[q].commit <= |c'.nodes[q].log|
      ensures CommittedBy(c'.h, c'.nodes[q].log[..c'.nodes[q].commit], c'.nodes[q].term)
    {
      if q != p {
        CommittedByStays(c.h, c'.h, c.nodes[q].log[..c.nodes[q].commit], c.nodes[q].term, c.nodes[q].term);
      }
    }
  }

  lemma AdvanceShape(c: State, p: NodeId)
    requires p in c.nodes && NodesOk(c.nodes) && VoteInv(c.nodes, c.net, c.h) && LeaderInv(c.nodes, c.h)
    requires AckInv(c.nodes, c.h) && ProgressInv(c.nodes, c.h)
    requires AdvanceAt(c, p) != c
    ensures var s, c' := c.nodes[p], AdvanceAt(c, p);
      && s.role.Leader? && s.term in c.h.logs && c.h.logs[s.term] == s.log
      && s.commit < c'.nodes[p].commit <= |s.log|
      && c' == c.(nodes := c.nodes[p := s.(commit := c'.nodes[p].commit)], h := Noted(c.h, s.term, c'.nodes[p].commit))
      && OwnEntry(c.h, s.term, c'.nodes[p].commit) && AckQuorum(c.nodes.Keys, c.h, s.term, c'.nodes[p].commit)
  {
    var s := c.nodes[p];
    CommitFromExact(s, |s.log|);
    assert Configured(c.nodes, p) && NodeVote(c.h, s) && LeadsTerm(c.h, s) && ProgressOk(c.h, s);
    CommittableIsAcked(c.nodes, c.h, p, CommitFrom(s, |s.log|));
  }

  lemma NotedOk(nodes: Nodes, h: History, t: nat, i: nat)
    requires CommitsOk(nodes, h) && ClogInv(h) && OwnEntry(h, t, i) && AckQuorum(nodes.Keys, h, t, i)
    ensures var h' := Noted(h, t, i);
      && ClogInv(h') && CommitsGrow(h, h') && CommittedBy(h', h.logs[t][..i], t)
      && (forall u | u in h'.committed :: CommitRecorded(nodes.Keys, h', u))
  {
    NotedClogOk(nodes, h, t, i);
    NotedRecorded(nodes, h, t, i);
    assert CommittedIn(Noted(h, t, i), h.logs[t][..i], t, t);
  }

  lemma NoteCommitKeeps(c: State, c': State, p: NodeId)
    requires Inv(c) && QuietStep(c, c', p) && VoteKept(c.nodes[p], c'.nodes[p])
    requires c'.net == c.net && c'.h.votes == c.h.votes
    requires ProgressOk(c'.h, c'.nodes[p])
    requires CommitInv(c'.nodes, c'.h) && ClogInv(c'.h)
    ensures Inv(c') && Evolves(c, c')
  {
    NoVoteVotes(c, c', p);
    NoVoteCandidates(c, c', p);
    QuietKeeps(c, c', p);
  }

  lemma AdvanceKeeps(c: State, p: NodeId)
    requires Inv(c) && p in c.nodes
    ensures Inv(AdvanceAt(c, p)) && Evolves(c, AdvanceAt(c, p))
  {
    var c' := AdvanceAt(c, p);
    if c' != c {
      AdvanceShape(c, p);
      InvCommitsOk(c);
      NotedOk(c.nodes, c.h, c.nodes[p].term, c'.nodes[p].commit);
      AdvanceQuiet(c, c', p);
      NodesStayCommitted(c, c', p, c'.nodes[p].commit);
      NoteCommitKeeps(c, c', p);
    }
  }

  lemma AdvanceQuiet(c: State, c': State, p: NodeId)
    requires p in c.nodes && NodesOk(c.nodes) && ProgressInv(c.nodes, c.h)
    requires c.nodes[p].term in c.h.logs && p in c'.nodes
    requires c.nodes[p].commit <= c'.nodes[p].commit <= |c.h.logs[c.nodes[p].term]|
    requires c' == c.(nodes := c.nodes[p := c.nodes[p].(commit := c'.nodes[p].commit)],
                      h := Noted(c.h, c.nodes[p].term, c'.nodes[p].commit))
    requires CommitsGrow(c.h, c'.h)
    ensures QuietStep(c, c', p) && VoteKept(c.nodes[p], c'.nodes[p]) && ProgressOk(c'.h, c'.nodes[p])
    ensures c.nodes[p].log == c.h.logs[c.nodes[p].term] ==> CommitsAt(c, c', p, c'.nodes[p].commit)
    ensures c'.nodes.Keys == c.nodes.Keys
  {
    assert ProgressOk(c.h, c.nodes[p]);
  }
}
