/**
  How a round of replication ends, reply by reply (raft/heartbeat.go), and how
  a proposal ends that repeats rounds (raft/proposal.go).
 */
module RoundOutcomes {
  import opened RaftTypes
  import opened NodeModel
  import opened Cluster
  import opened Rounds
  import opened RoundTheorems

  /** No reply is of a later term. */
  predicate Quiet(s: NodeState, arrivals: seq<Arrival>) {
    forall a | a in arrivals :: a.reply.Some? ==> a.reply.value.term <= s.term
  }

  predicate Known(s: NodeState, arrivals: seq<Arrival>) {
    forall a | a in arrivals :: KnowsPeer(s, a.peer)
  }

  /** What one reply that is not of a later term does to the node. */
  function Noted(s: NodeState, sent: map<NodeId, AppendRequest>, a: Arrival): NodeState
    requires a.peer in sent
  {
    if a.reply.None? then s
    else if a.reply.value.success then RecordSuccess(s, a.peer, sent[a.peer].Last())
    else RecordFailure(s, a.peer)
  }

  lemma NotedKeeps(s: NodeState, sent: map<NodeId, AppendRequest>, a: Arrival)
    requires a.peer in sent && KnowsPeer(s, a.peer)
    ensures var s' := Noted(s, sent, a);
      && s' == s.(commit := s'.commit, nextIndex := s'.nextIndex, matchIndex := s'.matchIndex)
      && s'.commit >= s.commit && s'.nextIndex.Some? && s'.nextIndex.value.Keys == s.nextIndex.value.Keys
      && (s'.commit > s.commit ==> a.reply.Some? && a.reply.value.success)
      && (s'.matchIndex.Some? <==> s.matchIndex.Some?)
  {
    var keys := s.nextIndex.value.Keys;
    assert keys + {a.peer} == keys;
  }

  lemma RestKnown(s: NodeState, sent: map<NodeId, AppendRequest>, arrivals: seq<Arrival>)
    requires |arrivals| > 0 && arrivals[0].peer in sent && Known(s, arrivals) && Quiet(s, arrivals)
    ensures var s1 := Noted(s, sent, arrivals[0]); Known(s1, arrivals[1..]) && Quiet(s1, arrivals[1..])
  {
    assert arrivals[0] in arrivals;
    NotedKeeps(s, sent, arrivals[0]);
  }

  // ---- A round as far as it goes ----

  /** Nothing in these replies ends the round: none is of a later term, and none brings the commit index to `stop`. */
  predicate RunsOn(s: NodeState, sent: map<NodeId, AppendRequest>, arrivals: seq<Arrival>, stop: nat)
    requires forall a | a in arrivals :: a.peer in sent
  {
    && Quiet(s, arrivals) && Known(s, arrivals)
    && (stop == 0 || Successes(arrivals) == 0 || Handle(s, sent, arrivals, 0).0.commit < stop)
  }

  /** A round that runs on goes through its replies one after the other. */
  lemma {:induction false} HandleRunsOn(s: NodeState, sent: map<NodeId, AppendRequest>, first: seq<Arrival>,
                                        rest: seq<Arrival>, stop: nat)
    requires (forall a | a in first :: a.peer in sent) && (forall a | a in rest :: a.peer in sent)
    requires RunsOn(s, sent, first, stop)
    ensures Handle(s, sent, first + rest, stop) == Handle(Handle(s, sent, first, 0).0, sent, rest, stop)
    ensures Handle(s, sent, first, 0).1
    decreases |first|
  {
    if |first| == 0 {
      assert first + rest == rest;
    } else {
      assert (first + rest)[1..] == first[1..] + rest && first[0] in first;
      var s1 := Noted(s, sent, first[0]);
      RestKnown(s, sent, first);
      HandleKeeps(s1, sent, first[1..], 0);
      HandleRunsOn(s1, sent, first[1..], rest, stop);
    }
  }

  /**
    The first reply of a later term ends the round, unless the round has
    stopped before: the node follows in exactly that term, with no vote, no
    leader and no progress, and has kept its log, its members and all that the
    earlier replies let it commit.
   */
  lemma LaterReplyEndsLeadership(s: NodeState, sent: map<NodeId, AppendRequest>, arrivals: seq<Arrival>,
                                 stop: nat, k: nat)
    requires (forall a | a in arrivals :: a.peer in sent) && k < |arrivals| && RunsOn(s, sent, arrivals[..k], stop)
    requires arrivals[k].reply.Some? && arrivals[k].reply.value.term > s.term
    ensures var (s', ok) := Handle(s, sent, arrivals, stop);
      && ok && s'.role.Follower? && s'.term == arrivals[k].reply.value.term
      && s'.votedFor == NONE && s'.leaderId == NONE && s'.nextIndex.None? && s'.matchIndex.None?
      && s'.log == s.log && s'.peers == s.peers && s'.commit == Handle(s, sent, arrivals[..k], 0).0.commit
  {
    var first, rest := arrivals[..k], arrivals[k..];
    assert first + rest == arrivals;
    HandleRunsOn(s, sent, first, rest, stop);
    HandleQuiet(s, sent, first);
  }

  /** A reply from a peer the node keeps no progress for ends the round with an error. */
  lemma UnknownPeerFailsRound(s: NodeState, sent: map<NodeId, AppendRequest>, arrivals: seq<Arrival>, stop: nat, k: nat)
    requires (forall a | a in arrivals :: a.peer in sent) && k < |arrivals| && RunsOn(s, sent, arrivals[..k], stop)
    requires arrivals[k].reply.Some? && arrivals[k].reply.value.term <= s.term && !KnowsPeer(s, arrivals[k].peer)
    ensures Handle(s, sent, arrivals, stop) == (Handle(s, sent, arrivals[..k], 0).0, false)
  {
    var first, rest := arrivals[..k], arrivals[k..];
    assert first + rest == arrivals;
    HandleRunsOn(s, sent, first, rest, stop);
    HandleQuiet(s, sent, first);
  }

  /** The success that brings the commit index to `stop` ends the round; no later reply is looked at. */
  lemma RoundStopsWhenCommitted(s: NodeState, sent: map<NodeId, AppendRequest>, arrivals: seq<Arrival>,
                                stop: nat, k: nat)
    requires (forall a | a in arrivals :: a.peer in sent) && k < |arrivals| && stop > 0
    requires RunsOn(s, sent, arrivals[..k], stop) && RunsOn(s, sent, arrivals[..k + 1], 0)
    requires arrivals[k].reply.Some? && arrivals[k].reply.value.success
    requires Handle(s, sent, arrivals[..k + 1], 0).0.commit >= stop
    ensures Handle(s, sent, arrivals, stop) == Handle(s, sent, arrivals[..k + 1], 0)
  {
    var first, one, rest := arrivals[..k], [arrivals[k]], arrivals[k..];
    assert first + rest == arrivals && first + one == arrivals[..k + 1];
    assert arrivals[k] in arrivals[..k + 1];
    HandleRunsOn(s, sent, first, rest, stop);
    HandleRunsOn(s, sent, first, one, 0);
    HandleQuiet(s, sent, first);
    assert one[1..] == [];
  }

  // ---- What the replies say of each peer ----

  lemma {:induction false} HandleQuiet(s: NodeState, sent: map<NodeId, AppendRequest>, arrivals: seq<Arrival>)
    requires (forall a | a in arrivals :: a.peer in sent) && Quiet(s, arrivals) && Known(s, arrivals)
    ensures var (s', ok) := Handle(s, sent, arrivals, 0);
      && ok && s' == s.(commit := s'.commit, nextIndex := s'.nextIndex, matchIndex := s'.matchIndex)
      && (s.nextIndex.Some? ==> s'.nextIndex.Some? && s'.nextIndex.value.Keys == s.nextIndex.value.Keys)
    decreases |arrivals|
  {
    if |arrivals| > 0 {
      assert arrivals[0] in arrivals;
      RestKnown(s, sent, arrivals);
      NotedKeeps(s, sent, arrivals[0]);
      HandleQuiet(Noted(s, sent, arrivals[0]), sent, arrivals[1..]);
    }
  }

  /** The peer's progress is what its reply says. */
  predicate AsReplied(s: NodeState, s': NodeState, sent: map<NodeId, AppendRequest>, a: Arrival)
    requires a.peer in sent
  {
    var next := Lookup(s.nextIndex, a.peer);
    if a.reply.None? then Untouched(s, s', a.peer)
    else if a.reply.value.success then
      Lookup(s'.matchIndex, a.peer) == sent[a.peer].Last() && Lookup(s'.nextIndex, a.peer) == sent[a.peer].Last() + 1
    else
      && Lookup(s'.matchIndex, a.peer) == Lookup(s.matchIndex, a.peer)
      && Lookup(s'.nextIndex, a.peer) == if next > s.base + 1 then next - 1 else next
  }

  predicate Untouched(s: NodeState, s': NodeState, peer: NodeId) {
    Lookup(s'.nextIndex, peer) == Lookup(s.nextIndex, peer) && Lookup(s'.matchIndex, peer) == Lookup(s.matchIndex, peer)
  }

  lemma NotedAsReplied(s: NodeState, sent: map<NodeId, AppendRequest>, a: Arrival)
    requires a.peer in sent && KnowsPeer(s, a.peer) && s.matchIndex.Some?
    ensures AsReplied(s, Noted(s, sent, a), sent, a)
    ensures forall p | p != a.peer :: Untouched(s, Noted(s, sent, a), p)
  {
  }

  lemma LaterAsReplied(s: NodeState, s1: NodeState, s': NodeState, sent: map<NodeId, AppendRequest>, a: Arrival)
    requires a.peer in sent && Untouched(s, s1, a.peer) && s1.base == s.base && AsReplied(s1, s', sent, a)
    ensures AsReplied(s, s', sent, a)
  {
  }

  lemma RestDistinct(arrivals: seq<Arrival>)
    requires |arrivals| > 0 && Distinct(arrivals)
    ensures Distinct(arrivals[1..]) && forall a | a in arrivals[1..] :: a.peer != arrivals[0].peer
  {
    forall a | a in arrivals[1..] ensures a.peer != arrivals[0].peer {
      var i :| 0 <= i < |arrivals[1..]| && arrivals[1..][i] == a;
      assert arrivals[i + 1] == a;
    }
  }

  /**
    In a round that hears no later term and waits for every reply, each peer's
    progress ends as its reply says, and a peer that did not reply keeps its own.
   */
  lemma {:induction false} ProgressIsAsReplied(s: NodeState, sent: map<NodeId, AppendRequest>, arrivals: seq<Arrival>)
    requires (forall a | a in arrivals :: a.peer in sent) && Distinct(arrivals)
    requires Quiet(s, arrivals) && Known(s, arrivals) && s.matchIndex.Some?
    ensures var s' := Handle(s, sent, arrivals, 0).0;
      && (forall a | a in arrivals :: AsReplied(s, s', sent, a))
      && (forall p | (forall a | a in arrivals :: a.peer != p) :: Untouched(s, s', p))
    decreases |arrivals|
  {
    if |arrivals| > 0 {
      var a0, rest := arrivals[0], arrivals[1..];
      assert a0 in arrivals;
      var s1 := Noted(s, sent, a0);
      RestKnown(s, sent, arrivals);
      RestDistinct(arrivals);
      NotedKeeps(s, sent, a0);
      NotedAsReplied(s, sent, a0);
      ProgressIsAsReplied(s1, sent, rest);
      var s' := Handle(s, sent, arrivals, 0).0;
      assert s' == Handle(s1, sent, rest, 0).0;
      assert Untouched(s1, s', a0.peer);
      forall a | a in arrivals ensures AsReplied(s, s', sent, a) {
        if a != a0 {
          assert a in rest;
          LaterAsReplied(s, s1, s', sent, a);
        }
      }
      forall p | (forall a | a in arrivals :: a.peer != p) ensures Untouched(s, s', p) {
        assert Untouched(s1, s', p);
      }
    }
  }

  // ---- A round never fails at a leader ----

  predicate Complete(s: NodeState) {
    && s.nextIndex.Some? && s.matchIndex.Some?
    && forall p | p in s.peers :: p in s.nextIndex.value && p in s.matchIndex.value
  }

  /**
    Before a round every leader has progress for all its peers: what it had if
    that was complete, and otherwise a fresh start from the end of its log.
   */
  lemma ProgressRepaired(s: NodeState)
    requires s.role.Leader?
    ensures var s' := EnsureProgress(s);
      && KnowsAll(s') && s'.role.Leader? && s'.peers == s.peers && s'.log == s.log && s'.term == s.term
      && (Complete(s) ==> s' == s)
      && (s' != s ==> forall p | p in s.peers ::
            Lookup(s'.nextIndex, p) == |s.log| + 1 && Lookup(s'.matchIndex, p) == 0)
  {
  }

  lemma {:induction false} HandleNeverFails(s: NodeState, sent: map<NodeId, AppendRequest>, arrivals: seq<Arrival>,
                                            stop: nat)
    requires (forall a | a in arrivals :: a.peer in sent) && Known(s, arrivals)
    ensures Handle(s, sent, arrivals, stop).1
    decreases |arrivals|
  {
    if |arrivals| > 0 {
      assert arrivals[0] in arrivals;
      NotedKeeps(s, sent, arrivals[0]);
      HandleNeverFails(Noted(s, sent, arrivals[0]), sent, arrivals[1..], stop);
    }
  }

  lemma RoundNeverFails(s: NodeState, arrivals: seq<Arrival>, stop: nat)
    requires s.role.Leader? && From(s.peers, arrivals)
    ensures Replicated(s, arrivals, stop).1
  {
    ProgressRepaired(s);
    HandleNeverFails(EnsureProgress(s), Requests(EnsureProgress(s)), arrivals, stop);
  }

  /** A node that does not lead and keeps no progress for some peer sends nothing and is left as it is. */
  lemma FollowerRoundFails(s: NodeState, arrivals: seq<Arrival>, stop: nat)
    requires !s.role.Leader? && !KnowsAll(s) && From(s.peers, arrivals)
    ensures Replicated(s, arrivals, stop) == (s, false)
  {
  }

  // ---- Whole rounds ----

  lemma CompleteRound(s: NodeState, arrivals: seq<Arrival>, stop: nat)
    requires s.role.Leader? && Complete(s) && From(s.peers, arrivals)
    ensures Known(s, arrivals) && (forall a | a in arrivals :: a.peer in Requests(s))
    ensures Replicated(s, arrivals, stop) == Handle(s, Requests(s), arrivals, stop)
  {
    ProgressRepaired(s);
  }

  /** Replies that leave the round going: none of a later term, none that brings the commit index to `stop`. */
  predicate Goes(s: NodeState, arrivals: seq<Arrival>, stop: nat)
    requires From(s.peers, arrivals)
  {
    Quiet(s, arrivals) && (stop == 0 || Successes(arrivals) == 0 || Replicated(s, arrivals, 0).0.commit < stop)
  }

  /** A leader that hears a later term before its round is over follows in it, without vote, leader or progress. */
  lemma RoundEndsInLaterTerm(s: NodeState, arrivals: seq<Arrival>, stop: nat, k: nat)
    requires s.role.Leader? && Complete(s) && From(s.peers, arrivals) && k < |arrivals| && Goes(s, arrivals[..k], stop)
    requires arrivals[k].reply.Some? && arrivals[k].reply.value.term > s.term
    ensures var (s', ok) := Replicated(s, arrivals, stop);
      && ok && s'.role.Follower? && s'.term == arrivals[k].reply.value.term
      && s'.votedFor == NONE && s'.leaderId == NONE && s'.nextIndex.None? && s'.matchIndex.None?
      && s'.log == s.log && s'.peers == s.peers && s'.commit == Replicated(s, arrivals[..k], 0).0.commit
  {
    CompleteRound(s, arrivals, stop);
    CompleteRound(s, arrivals[..k], 0);
    LaterReplyEndsLeadership(s, Requests(s), arrivals, stop, k);
  }

  /** A round that waits for an index ends with the success that commits it, whatever arrives afterwards. */
  lemma RoundEndsWhenCommitted(s: NodeState, arrivals: seq<Arrival>, stop: nat, k: nat)
    requires s.role.Leader? && Complete(s) && From(s.peers, arrivals) && k < |arrivals| && stop > 0
    requires Goes(s, arrivals[..k], stop) && Quiet(s, arrivals[..k + 1])
    requires arrivals[k].reply.Some? && arrivals[k].reply.value.success
    requires Replicated(s, arrivals[..k + 1], 0).0.commit >= stop
    ensures Replicated(s, arrivals, stop) == Replicated(s, arrivals[..k + 1], 0)
  {
    CompleteRound(s, arrivals, stop);
    CompleteRound(s, arrivals[..k], 0);
    CompleteRound(s, arrivals[..k + 1], 0);
    RoundStopsWhenCommitted(s, Requests(s), arrivals, stop, k);
  }

  /** A peer that accepts is then known to hold the leader's whole log, and is sent what comes after it. */
  lemma AcceptingPeerHoldsLog(s: NodeState, arrivals: seq<Arrival>, a: Arrival)
    requires Leading(s) && From(s.peers, arrivals) && Distinct(arrivals) && Quiet(s, arrivals)
    requires a in arrivals && a.reply.Some? && a.reply.value.success
    ensures var s' := Replicated(s, arrivals, 0).0;
      Lookup(s'.matchIndex, a.peer) == |s.log| && Lookup(s'.nextIndex, a.peer) == |s.log| + 1
  {
    assert forall p | p in s.peers :: p in PeerSet(s.peers);
    CompleteRound(s, arrivals, 0);
    WholeLogSent(s, a.peer);
    ProgressIsAsReplied(s, Requests(s), arrivals);
  }

  // ---- Repeated rounds ----

  /** The node after these rounds, one after the other. */
  function AfterRounds(s: NodeState, rounds: seq<seq<Arrival>>, stop: nat): (s': NodeState)
    requires forall r | r in rounds :: From(s.peers, r)
    ensures s'.peers == s.peers
  {
    if |rounds| == 0 then s
    else
      var before := AfterRounds(s, rounds[..|rounds| - 1], stop);
      ReplicatedKeeps(before, rounds[|rounds| - 1], stop);
      Replicated(before, rounds[|rounds| - 1], stop).0
  }

  lemma {:induction false} AfterFirst(s: NodeState, rounds: seq<seq<Arrival>>, stop: nat)
    requires (forall r | r in rounds :: From(s.peers, r)) && |rounds| > 0
    ensures Replicated(s, rounds[0], stop).0.peers == s.peers
    ensures AfterRounds(s, rounds, stop) == AfterRounds(Replicated(s, rounds[0], stop).0, rounds[1..], stop)
    decreases |rounds|
  {
    ReplicatedKeeps(s, rounds[0], stop);
    var init, rest := rounds[..|rounds| - 1], rounds[1..];
    if |rounds| == 1 {
      assert init == [] && rest == [];
    } else {
      AfterFirst(s, init, stop);
      assert rest[..|rest| - 1] == init[1..] && rest[|rest| - 1] == rounds[|rounds| - 1];
    }
  }

  /** After `k` rounds the waiting is over: the index is committed, the node no longer leads, or no round is left. */
  predicate EndsAfter(s: NodeState, index: nat, rounds: seq<seq<Arrival>>, k: nat)
    requires (forall r | r in rounds :: From(s.peers, r)) && k <= |rounds|
  {
    var s' := AfterRounds(s, rounds[..k], index);
    s'.commit >= index || !s'.role.Leader? || k == |rounds|
  }

  lemma NotOverYet(s: NodeState, index: nat, rounds: seq<seq<Arrival>>)
    requires (forall r | r in rounds :: From(s.peers, r)) && |rounds| > 0 && s.role.Leader? && s.commit < index
    ensures !EndsAfter(s, index, rounds, 0)
  {
    assert rounds[..0] == [];
  }

  lemma OneRoundLater(s: NodeState, index: nat, rounds: seq<seq<Arrival>>, j: nat)
    requires (forall r | r in rounds :: From(s.peers, r)) && j < |rounds|
    ensures var s1 := Replicated(s, rounds[0], index).0;
      && s1.peers == s.peers
      && AfterRounds(s, rounds[..j + 1], index) == AfterRounds(s1, rounds[1..][..j], index)
      && (EndsAfter(s, index, rounds, j + 1) <==> EndsAfter(s1, index, rounds[1..], j))
  {
    ReplicatedKeeps(s, rounds[0], index);
    assert rounds[..j + 1][1..] == rounds[1..][..j] && rounds[..j + 1][0] == rounds[0];
    AfterFirst(s, rounds[..j + 1], index);
  }

  /**
    A proposal waits for exactly as many rounds as it takes until its index is
    committed, the node no longer leads or no round is left, and succeeds if
    and only if the index is then committed. No round fails at a leader.
   */
  lemma {:induction false} AwaitedExactly(s: NodeState, index: nat, rounds: seq<seq<Arrival>>) returns (k: nat)
    requires forall r | r in rounds :: From(s.peers, r)
    ensures k <= |rounds| && EndsAfter(s, index, rounds, k) && forall j | 0 <= j < k :: !EndsAfter(s, index, rounds, j)
    ensures var s' := AfterRounds(s, rounds[..k], index); Awaited(s, index, rounds) == (s', s'.commit >= index)
    decreases |rounds|
  {
    if s.commit >= index || !s.role.Leader? || |rounds| == 0 {
      k := 0;
    } else {
      assert rounds[0] in rounds;
      ReplicatedKeeps(s, rounds[0], index);
      RoundNeverFails(s, rounds[0], index);
      var s1 := Replicated(s, rounds[0], index).0;
      var rest := AwaitedExactly(s1, index, rounds[1..]);
      k := rest + 1;
      OneRoundLater(s, index, rounds, rest);
      forall j: nat | j < k ensures !EndsAfter(s, index, rounds, j) {
        if j == 0 {
          NotOverYet(s, index, rounds);
        } else {
          OneRoundLater(s, index, rounds, j - 1);
        }
      }
    }
  }

  /**
    A proposal that appended its entry fails only with the entry beyond the
    commit index, and only because the node no longer leads or because all
    rounds were used.
   */
  lemma ProposalFailsExactly(s: NodeState, command: Command, rounds: seq<seq<Arrival>>)
    requires (forall r | r in rounds :: From(s.peers, r)) && s.role.Leader? && !RefusesAppend(s, command)
    ensures AppendLocal(s, command).peers == s.peers
    ensures var (s', entry, ok) := Proposal(s, command, rounds);
      && (ok <==> s'.commit > |s.log|)
      && (!ok && s'.role.Leader? ==> s' == AfterRounds(AppendLocal(s, command), rounds, |s.log| + 1))
  {
    AppendedKeeps(s, command);
    var k := AwaitedExactly(AppendLocal(s, command), |s.log| + 1, rounds);
    if k == |rounds| {
      assert rounds[..k] == rounds;
    }
  }

  // ---- Any round may be the one ----

  lemma NotedKeepsLeading(s: NodeState, sent: map<NodeId, AppendRequest>, a: Arrival)
    requires Leading(s) && a.peer in s.peers && a.peer in sent && sent[a.peer].Last() == |s.log|
    ensures KnowsPeer(s, a.peer) && Leading(Noted(s, sent, a))
  {
    SuccessRecorded(s, a.peer, {});
    FailureRecorded(s, a.peer, {});
  }

  lemma {:induction false} HandleKeepsLeading(s: NodeState, sent: map<NodeId, AppendRequest>, arrivals: seq<Arrival>,
                                              stop: nat)
    requires Leading(s) && From(s.peers, arrivals) && Quiet(s, arrivals)
    requires forall p | p in s.peers :: p in sent && sent[p].Last() == |s.log|
    ensures forall a | a in arrivals :: a.peer in sent
    ensures var s' := Handle(s, sent, arrivals, stop).0;
      Leading(s') && s'.peers == s.peers && s'.log == s.log && s'.term == s.term
    decreases |arrivals|
  {
    if |arrivals| > 0 {
      assert arrivals[0] in arrivals;
      NotedKeepsLeading(s, sent, arrivals[0]);
      var s1 := Noted(s, sent, arrivals[0]);
      NotedKeeps(s, sent, arrivals[0]);
      HandleKeepsLeading(s1, sent, arrivals[1..], stop);
    }
  }

  lemma QuietRoundKeepsLeading(s: NodeState, arrivals: seq<Arrival>, stop: nat)
    requires Leading(s) && From(s.peers, arrivals) && Quiet(s, arrivals)
    ensures var s' := Replicated(s, arrivals, stop).0;
      Leading(s') && s'.peers == s.peers && s'.log == s.log && s'.term == s.term
  {
    forall p | p in s.peers ensures p in PeerSet(s.peers) && BuildAppend(s, p).Last() == |s.log| {
      WholeLogSent(s, p);
    }
    assert EnsureProgress(s) == s && KnowsAll(s);
    HandleKeepsLeading(s, Requests(s), arrivals, stop);
  }

  lemma {:induction false} SomeRoundCommits(s: NodeState, rounds: seq<seq<Arrival>>, k: nat)
    requires (forall r | r in rounds :: From(s.peers, r)) && Leading(s) && s.peers != [] && k < |rounds|
    requires (forall j | 0 <= j < k :: Quiet(s, rounds[j])) && FirstReaches(s, rounds[k..])
    ensures Awaited(s, |s.log|, rounds).1
    decreases k
  {
    if k == 0 {
      assert rounds[0..] == rounds;
      FirstRoundAccepts(s, |s.log|, rounds);
    } else if s.commit < |s.log| {
      assert rounds[0] in rounds;
      QuietRoundKeepsLeading(s, rounds[0], |s.log|);
      RoundNeverFails(s, rounds[0], |s.log|);
      var s1 := Replicated(s, rounds[0], |s.log|).0;
      assert rounds[1..][k - 1..] == rounds[k..];
      SomeRoundCommits(s1, rounds[1..], k - 1);
    }
  }

  /**
    A proposal succeeds as soon as any of its rounds reaches a majority, if no
    reply up to then is of a later term: rounds that reach nobody only delay it.
   */
  lemma SomeRoundAccepts(s: NodeState, command: Command, rounds: seq<seq<Arrival>>, k: nat)
    requires (forall r | r in rounds :: From(s.peers, r)) && !RefusesAppend(s, command)
    requires Leading(AppendOnly(s, command)) && s.peers != [] && k < |rounds|
    requires (forall j | 0 <= j < k :: Quiet(s, rounds[j])) && FirstReaches(s, rounds[k..])
    ensures Proposal(s, command, rounds).2
  {
    CommitLeading(AppendOnly(s, command));
    SomeRoundCommits(AppendLocal(s, command), rounds, k);
  }
}
