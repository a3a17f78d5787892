/** One round in which a majority answers commits everything the leader has. */
module RoundTheorems {
  import opened RaftTypes
  import opened LogOps
  import opened NodeModel
  import opened Cluster
  import opened Evolution
  import opened CommitSteps
  import opened Rounds

  /** A leader with progress for exactly its peers, whose last entry is of its own term. */
  predicate Leading(s: NodeState) {
    && s.role.Leader? && s.selfMember && NoDuplicates(s.peers)
    && s.nextIndex.Some? && s.matchIndex.Some?
    && s.nextIndex.value.Keys == PeerSet(s.peers) && s.matchIndex.value.Keys == PeerSet(s.peers)
    && (forall p | p in s.peers :: 1 <= Lookup(s.nextIndex, p) <= |s.log| + 1)
    && s.base <= |s.log| && 0 < |s.log| && LastTerm(s.log) == s.term
  }

  predicate Distinct(arrivals: seq<Arrival>) {
    forall i, j | 0 <= i < j < |arrivals| :: arrivals[i].peer != arrivals[j].peer
  }

  function Successes(arrivals: seq<Arrival>): nat {
    if |arrivals| == 0 then 0
    else (if arrivals[0].reply.Some? && arrivals[0].reply.value.success then 1 else 0) + Successes(arrivals[1..])
  }

  /** What is yet to arrive: replies to whole-log requests from peers not done, none of a later term. */
  predicate Pending(s: NodeState, sent: map<NodeId, AppendRequest>, arrivals: seq<Arrival>, done: set<NodeId>) {
    && From(s.peers, arrivals) && Distinct(arrivals)
    && (forall p | p in s.peers :: p in sent && sent[p].Last() == |s.log|)
    && (forall a | a in arrivals :: a.peer !in done && (a.reply.Some? ==> a.reply.value.term <= s.term))
  }

  /** These peers are known to hold the whole log. */
  predicate Hold(s: NodeState, done: set<NodeId>) {
    forall p | p in done :: p in s.peers && Lookup(s.matchIndex, p) >= |s.log|
  }

  lemma EnoughCommits(s: NodeState, done: set<NodeId>)
    requires Leading(s) && Hold(s, done) && |done| + 1 >= Majority(ClusterSize(s))
    ensures AdvanceCommit(s).commit >= |s.log|
  {
    HoldersCount(s.peers, s.matchIndex, |s.log|);
    Smaller(done, HolderSet(s.peers, s.matchIndex, |s.log|));
  }

  lemma PendingRest(s: NodeState, s': NodeState, sent: map<NodeId, AppendRequest>, arrivals: seq<Arrival>,
                    done: set<NodeId>, done': set<NodeId>)
    requires Pending(s, sent, arrivals, done) && |arrivals| > 0 && done <= done' <= done + {arrivals[0].peer}
    requires s'.peers == s.peers && s'.log == s.log && s'.term == s.term
    ensures Pending(s', sent, arrivals[1..], done')
  {
    var rest := arrivals[1..];
    forall a | a in rest ensures a in arrivals && a.peer != arrivals[0].peer {
      var i :| 0 <= i < |rest| && rest[i] == a;
      assert arrivals[i + 1] == a;
    }
  }

  lemma MatchRecorded(s: NodeState, peer: NodeId)
    requires Leading(s) && peer in s.peers
    ensures KnowsPeer(s, peer) && Leading(RecordMatch(s, peer, |s.log|))
  {
    assert peer in PeerSet(s.peers);
    var s1 := RecordMatch(s, peer, |s.log|);
    assert s1.matchIndex.value.Keys == PeerSet(s.peers) + {peer} == PeerSet(s.peers);
    assert s1.nextIndex.value.Keys == PeerSet(s.peers) + {peer} == PeerSet(s.peers);
  }

  lemma CommitLeading(s: NodeState)
    requires Leading(s)
    ensures Leading(AdvanceCommit(s)) && AdvanceCommit(s).matchIndex == s.matchIndex
  {
  }

  lemma SuccessRecorded(s: NodeState, peer: NodeId, done: set<NodeId>)
    requires Leading(s) && Hold(s, done) && peer in s.peers
    ensures var s' := RecordSuccess(s, peer, |s.log|);
      && Leading(s') && Hold(s', done + {peer}) && KnowsPeer(s, peer)
      && (|done + {peer}| + 1 >= Majority(ClusterSize(s)) ==> s'.commit >= |s.log|)
  {
    MatchRecorded(s, peer);
    var s1 := RecordMatch(s, peer, |s.log|);
    CommitLeading(s1);
    assert Hold(s1, done + {peer});
    if |done + {peer}| + 1 >= Majority(ClusterSize(s)) {
      EnoughCommits(s1, done + {peer});
    }
  }

  lemma FailureRecorded(s: NodeState, peer: NodeId, done: set<NodeId>)
    requires Leading(s) && Hold(s, done) && peer in s.peers
    ensures Leading(RecordFailure(s, peer)) && Hold(RecordFailure(s, peer), done) && KnowsPeer(s, peer)
  {
    assert peer in PeerSet(s.peers);
  }

  /** How far a round that may stop at `stop` has to commit. */
  function Goal(s: NodeState, stop: nat): nat {
    if stop > 0 then Min(stop, |s.log|) else |s.log|
  }

  /** The peers done and those whose success is yet to arrive make a majority. */
  predicate OnCourse(s: NodeState, sent: map<NodeId, AppendRequest>, arrivals: seq<Arrival>, done: set<NodeId>) {
    && Leading(s) && Hold(s, done) && Pending(s, sent, arrivals, done)
    && |done| + Successes(arrivals) + 1 >= Majority(ClusterSize(s))
    && (Successes(arrivals) > 0 || s.commit >= |s.log|)
  }

  lemma OnCourseSuccess(s: NodeState, sent: map<NodeId, AppendRequest>, arrivals: seq<Arrival>, done: set<NodeId>)
    requires OnCourse(s, sent, arrivals, done) && |arrivals| > 0
    requires arrivals[0].reply.Some? && arrivals[0].reply.value.success
    ensures KnowsPeer(s, arrivals[0].peer) && sent[arrivals[0].peer].Last() == |s.log|
    ensures OnCourse(RecordSuccess(s, arrivals[0].peer, |s.log|), sent, arrivals[1..], done + {arrivals[0].peer})
  {
    var peer := arrivals[0].peer;
    assert arrivals[0] in arrivals;
    SuccessRecorded(s, peer, done);
    PendingRest(s, RecordSuccess(s, peer, |s.log|), sent, arrivals, done, done + {peer});
  }

  lemma OnCourseFailure(s: NodeState, sent: map<NodeId, AppendRequest>, arrivals: seq<Arrival>, done: set<NodeId>)
    requires OnCourse(s, sent, arrivals, done) && |arrivals| > 0
    requires arrivals[0].reply.None? || !arrivals[0].reply.value.success
    ensures KnowsPeer(s, arrivals[0].peer)
    ensures OnCourse(s, sent, arrivals[1..], done)
    ensures OnCourse(RecordFailure(s, arrivals[0].peer), sent, arrivals[1..], done)
  {
    var peer := arrivals[0].peer;
    assert arrivals[0] in arrivals;
    FailureRecorded(s, peer, done);
    PendingRest(s, s, sent, arrivals, done, done);
    PendingRest(s, RecordFailure(s, peer), sent, arrivals, done, done);
  }

  lemma OnCourseTerm(s: NodeState, sent: map<NodeId, AppendRequest>, arrivals: seq<Arrival>, done: set<NodeId>)
    requires OnCourse(s, sent, arrivals, done)
    ensures forall a | a in arrivals :: a.peer in sent
    ensures |arrivals| > 0 && arrivals[0].reply.Some? ==> arrivals[0].reply.value.term <= s.term
    ensures |arrivals| == 0 ==> s.commit >= |s.log|
  {
  }

  lemma {:induction false} HandleCommits(s: NodeState, sent: map<NodeId, AppendRequest>, arrivals: seq<Arrival>,
                                         stop: nat, done: set<NodeId>)
    requires OnCourse(s, sent, arrivals, done)
    ensures forall a | a in arrivals :: a.peer in sent
    ensures var (s', ok) := Handle(s, sent, arrivals, stop); ok && s'.commit >= Goal(s, stop)
    decreases |arrivals|
  {
    OnCourseTerm(s, sent, arrivals, done);
    if |arrivals| > 0 {
      var peer, reply := arrivals[0].peer, arrivals[0].reply;
      if reply.Some? && reply.value.success {
        OnCourseSuccess(s, sent, arrivals, done);
        HandleCommits(RecordSuccess(s, peer, |s.log|), sent, arrivals[1..], stop, done + {peer});
      } else {
        OnCourseFailure(s, sent, arrivals, done);
        HandleCommits(if reply.None? then s else RecordFailure(s, peer), sent, arrivals[1..], stop, done);
      }
    }
  }

  lemma WholeLogSent(s: NodeState, p: NodeId)
    requires Leading(s) && p in s.peers
    ensures BuildAppend(s, p).Last() == |s.log|
  {
  }

  /**
    A leader whose requests a majority of its cluster, itself included, accepts
    in one round, with no reply of a later term, has committed its whole log by
    the end of the round (or as much of it as it was asked to wait for),
    whatever the order of the replies and whichever calls fail. A leader alone
    in its cluster hears from no one; it has committed its log by the last time
    it ran the commit rule.
   */
  lemma MajorityRoundCommits(s: NodeState, arrivals: seq<Arrival>, stop: nat)
    requires Leading(s) && From(s.peers, arrivals) && Distinct(arrivals)
    requires forall a | a in arrivals :: a.reply.Some? ==> a.reply.value.term <= s.term
    requires Successes(arrivals) + 1 >= Majority(ClusterSize(s)) && (Successes(arrivals) > 0 || AdvanceCommit(s) == s)
    ensures var (s', ok) := Replicated(s, arrivals, stop); ok && s'.commit >= Goal(s, stop)
  {
    forall p | p in s.peers ensures p in PeerSet(s.peers) && BuildAppend(s, p).Last() == |s.log| {
      WholeLogSent(s, p);
    }
    assert EnsureProgress(s) == s && KnowsAll(s);
    if Successes(arrivals) == 0 {
      EnoughCommits(s, {});
    }
    HandleCommits(s, Requests(s), arrivals, stop, {});
  }

  /** The first round reaches a majority and no later term. */
  predicate FirstReaches(s: NodeState, rounds: seq<seq<Arrival>>) {
    && |rounds| > 0 && Distinct(rounds[0]) && Successes(rounds[0]) + 1 >= Majority(ClusterSize(s))
    && forall a | a in rounds[0] :: a.reply.Some? ==> a.reply.value.term <= s.term
  }

  /**
    A leader that knows its peers commits a proposal as soon as one round
    reaches a majority; one that is alone needs no round.
   */
  lemma MajorityRoundAccepts(s: NodeState, command: Command, rounds: seq<seq<Arrival>>)
    requires (forall r | r in rounds :: From(s.peers, r)) && !RefusesAppend(s, command)
    requires Leading(AppendOnly(s, command)) && (s.peers == [] || FirstReaches(s, rounds))
    ensures Proposal(s, command, rounds).2
  {
    var s1, index := AppendLocal(s, command), |s.log| + 1;
    CommitLeading(AppendOnly(s, command));
    if s.peers == [] {
      EnoughCommits(AppendOnly(s, command), {});
    } else {
      FirstRoundAccepts(s1, index, rounds);
    }
  }

  lemma FirstRoundAccepts(s: NodeState, index: nat, rounds: seq<seq<Arrival>>)
    requires (forall r | r in rounds :: From(s.peers, r)) && Leading(s) && index == |s.log|
    requires s.peers != [] && FirstReaches(s, rounds)
    ensures Awaited(s, index, rounds).1
  {
    assert rounds[0] in rounds;
    MajorityRoundCommits(s, rounds[0], index);
  }
}
