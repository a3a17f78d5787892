/** When an election is won, and what each way out of it leaves (raft/election.go). */
module Elections {
  import opened RaftTypes
  import opened NodeModel
  import opened Cluster
  import opened CommitSteps
  import opened Protocols

  // ---- One round of votes ----

  type Replies = seq<Option<VoteReply>>

  /** None of the first `k` replies is of a later term. */
  predicate NoneLater(replies: Replies, term: nat, k: nat)
    requires k <= |replies|
  {
    forall i | 0 <= i < k :: replies[i].Some? ==> replies[i].value.term <= term
  }

  /** The votes suffice after the first `k` replies, with no reply of a later term among them. */
  predicate Suffice(replies: Replies, term: nat, needed: nat, k: nat)
    requires k <= |replies|
  {
    NoneLater(replies, term, k) && 1 + Granted(replies[..k]) >= needed
  }

  /** Reply `k` is the first of a later term, and the votes before it do not suffice. */
  predicate Overtakes(replies: Replies, term: nat, needed: nat, k: nat)
    requires k < |replies|
  {
    && NoneLater(replies, term, k) && replies[k].Some? && replies[k].value.term > term
    && 1 + Granted(replies[..k]) < needed
  }

  lemma {:induction false} GrantedMore(replies: Replies, j: nat, k: nat)
    requires j <= k <= |replies|
    ensures Granted(replies[..j]) <= Granted(replies[..k])
    decreases j
  {
    if j > 0 {
      assert replies[..j][1..] == replies[1..][..j - 1] && replies[..k][1..] == replies[1..][..k - 1];
      GrantedMore(replies[1..], j - 1, k - 1);
    }
  }

  /** Counting passes over the first replies as long as they neither suffice nor overtake. */
  lemma {:induction false} CountPasses(replies: Replies, term: nat, votes: nat, needed: nat, k: nat)
    requires k <= |replies| && NoneLater(replies, term, k)
    requires k > 0 ==> votes + Granted(replies[..k - 1]) < needed
    ensures Count(replies, term, votes, needed) == Count(replies[k..], term, votes + Granted(replies[..k]), needed)
    decreases k
  {
    if k == 0 {
      assert replies[0..] == replies;
    } else {
      var one := if replies[0].Some? && replies[0].value.granted then 1 else 0;
      assert replies[..k][1..] == replies[1..][..k - 1] && replies[1..][k - 1..] == replies[k..];
      GrantedMore(replies, 0, k - 1);
      if k > 1 {
        assert replies[..k - 1][1..] == replies[1..][..k - 2];
      }
      CountPasses(replies[1..], term, votes + one, needed, k - 1);
    }
  }

  /** The first `k` at which the votes suffice. */
  lemma {:induction false} FirstSuffices(replies: Replies, term: nat, needed: nat, k: nat) returns (first: nat)
    requires k <= |replies| && Suffice(replies, term, needed, k)
    ensures first <= k && Suffice(replies, term, needed, first)
    ensures first > 0 ==> 1 + Granted(replies[..first - 1]) < needed
  {
    if k > 0 && 1 + Granted(replies[..k - 1]) >= needed {
      first := FirstSuffices(replies, term, needed, k - 1);
    } else {
      first := k;
    }
  }

  lemma SufficeWins(replies: Replies, term: nat, needed: nat, k: nat)
    requires k <= |replies| && Suffice(replies, term, needed, k)
    ensures Count(replies, term, 1, needed) == Won
  {
    var first := FirstSuffices(replies, term, needed, k);
    CountPasses(replies, term, 1, needed, first);
  }

  lemma OvertakesEnds(replies: Replies, term: nat, needed: nat, k: nat)
    requires k < |replies| && Overtakes(replies, term, needed, k)
    ensures Count(replies, term, 1, needed) == Tally.Overtaken(replies[k].value.term)
  {
    if k > 0 {
      GrantedMore(replies, k - 1, k);
    }
    CountPasses(replies, term, 1, needed, k);
  }

  lemma ShortEnds(replies: Replies, term: nat, needed: nat)
    requires NoneLater(replies, term, |replies|) && 1 + Granted(replies) < needed
    ensures Count(replies, term, 1, needed) == Short
  {
    forall r | r in replies && r.Some? ensures r.value.term <= term {
      var i :| 0 <= i < |replies| && replies[i] == r;
    }
    CountExact(replies, term, 1, needed);
  }

  /** The three ways a round of votes can go exclude each other and leave no other. */
  lemma OneOfThree(replies: Replies, term: nat, needed: nat)
    ensures (exists k | 0 <= k <= |replies| :: Suffice(replies, term, needed, k))
      || (exists k | 0 <= k < |replies| :: Overtakes(replies, term, needed, k))
      || (NoneLater(replies, term, |replies|) && 1 + Granted(replies) < needed)
  {
    assert replies[..|replies|] == replies;
    if NoneLater(replies, term, |replies|) {
      assert Suffice(replies, term, needed, |replies|) || 1 + Granted(replies) < needed;
    } else {
      var k := FirstLater(replies, term);
      assert Suffice(replies, term, needed, k) || Overtakes(replies, term, needed, k);
    }
  }

  lemma FirstLater(replies: Replies, term: nat) returns (k: nat)
    requires !NoneLater(replies, term, |replies|)
    ensures k < |replies| && NoneLater(replies, term, k) && replies[k].Some? && replies[k].value.term > term
  {
    k := 0;
    while replies[k].None? || replies[k].value.term <= term
      invariant k < |replies| && NoneLater(replies, term, k)
      decreases |replies| - k
    {
      k := k + 1;
    }
  }

  /** A round of votes is won if and only if the votes suffice before a later term is heard. */
  lemma WonExactly(replies: Replies, term: nat, needed: nat)
    ensures Count(replies, term, 1, needed) == Won <==>
      exists k | 0 <= k <= |replies| :: Suffice(replies, term, needed, k)
  {
    OneOfThree(replies, term, needed);
    if k :| 0 <= k <= |replies| && Suffice(replies, term, needed, k) {
      SufficeWins(replies, term, needed, k);
    } else if k :| 0 <= k < |replies| && Overtakes(replies, term, needed, k) {
      OvertakesEnds(replies, term, needed, k);
    } else {
      ShortEnds(replies, term, needed);
    }
  }

  // ---- The election ----

  /** Enough nodes, the node itself included, grant before a later term is heard. */
  ghost predicate Carried(replies: Replies, term: nat, needed: nat) {
    exists k | 0 <= k <= |replies| :: Suffice(replies, term, needed, k)
  }

  /**
    An election is won if and only if the node is a member and a majority of its
    cluster grants it first the pre-vote and then the vote, each before a reply
    of a later term arrives.
   */
  lemma ElectionWonExactly(s: NodeState, preVotes: Replies, votes: Replies)
    ensures Elected(s, preVotes, votes).1 <==>
      && s.selfMember && Carried(preVotes, s.term, Majority(|s.peers| + 1))
      && Carried(votes, s.term + 1, Majority(|s.peers| + 1))
  {
    WonExactly(preVotes, s.term, Majority(|s.peers| + 1));
    WonExactly(votes, s.term + 1, Majority(|s.peers| + 1));
  }

  /** Without replies of later terms that is to say: if and only if majorities grant both rounds. */
  lemma MajoritiesElect(s: NodeState, preVotes: Replies, votes: Replies)
    requires NoneLater(preVotes, s.term, |preVotes|) && NoneLater(votes, s.term + 1, |votes|)
    ensures Elected(s, preVotes, votes).1 <==>
      && s.selfMember && 1 + Granted(preVotes) >= Majority(|s.peers| + 1)
      && 1 + Granted(votes) >= Majority(|s.peers| + 1)
  {
    ElectionWonExactly(s, preVotes, votes);
    CarriedByAll(preVotes, s.term, Majority(|s.peers| + 1));
    CarriedByAll(votes, s.term + 1, Majority(|s.peers| + 1));
  }

  lemma CarriedByAll(replies: Replies, term: nat, needed: nat)
    requires NoneLater(replies, term, |replies|)
    ensures Carried(replies, term, needed) <==> 1 + Granted(replies) >= needed
  {
    assert replies[..|replies|] == replies;
    if k :| 0 <= k <= |replies| && Suffice(replies, term, needed, k) {
      GrantedMore(replies, k, |replies|);
    } else {
      assert !Suffice(replies, term, needed, |replies|);
    }
  }

  /**
    The winner leads the next term, having voted for itself, knows itself as
    leader, and counts for exactly its peers from the end of its log; its log,
    members and stored state are as before, and it has committed all that the
    rule lets it, which is nothing unless its log holds an entry of the new term.
   */
  lemma WinnerLeads(s: NodeState, preVotes: Replies, votes: Replies)
    requires Elected(s, preVotes, votes).1
    ensures var s' := Elected(s, preVotes, votes).0;
      && s'.role.Leader? && s'.term == s.term + 1 && s'.votedFor == s.id && s'.leaderId == s.id
      && s'.nextIndex.Some? && s'.nextIndex.value.Keys == PeerSet(s.peers)
      && s'.matchIndex.Some? && s'.matchIndex.value.Keys == PeerSet(s.peers)
      && (forall p | p in s.peers :: Lookup(s'.nextIndex, p) == |s.log| + 1 && Lookup(s'.matchIndex, p) == 0)
      && s'.log == s.log && s'.peers == s.peers && s'.selfMember && s'.applied == s.applied && s'.base == s.base
      && (s'.commit != s.commit ==> s.commit < s'.commit <= |s.log| && TermAt(s, s'.commit) == s.term + 1)
      && (forall n | s'.commit < n <= |s.log| :: !Committable(s', n))
  {
    var s1 := BecomeCandidate(s);
    var s2 := InitProgress(s1.(role := Leader, leaderId := s1.id));
    CommitFromExact(s2, |s.log|);
    var s' := Elected(s, preVotes, votes).0;
    forall n | s'.commit < n <= |s.log| ensures !Committable(s', n) {
      assert Committable(s', n) == Committable(s2, n);
    }
  }

  /** The node follows in this term and has not voted; everything but role, leader and progress is as it was. */
  predicate FollowsIn(s: NodeState, s': NodeState, term: nat) {
    && s'.role.Follower? && s'.term == term && s'.votedFor == NONE && s'.leaderId == NONE
    && s'.nextIndex.None? && s'.matchIndex.None?
    && s'.log == s.log && s'.commit == s.commit && s'.applied == s.applied && s'.peers == s.peers
    && s'.selfMember == s.selfMember && s'.base == s.base && s'.snapshot == s.snapshot
  }

  /** A later term heard before the pre-votes suffice makes the node follow in it. */
  lemma PreVoteOvertaken(s: NodeState, preVotes: Replies, votes: Replies, k: nat)
    requires s.selfMember && k < |preVotes| && Overtakes(preVotes, s.term, Majority(|s.peers| + 1), k)
    ensures var (s', won) := Elected(s, preVotes, votes); !won && FollowsIn(s, s', preVotes[k].value.term)
  {
    OvertakesEnds(preVotes, s.term, Majority(|s.peers| + 1), k);
  }

  /** And so does one heard before the votes suffice. */
  lemma VoteOvertaken(s: NodeState, preVotes: Replies, votes: Replies, k: nat)
    requires s.selfMember && Carried(preVotes, s.term, Majority(|s.peers| + 1))
    requires k < |votes| && Overtakes(votes, s.term + 1, Majority(|s.peers| + 1), k)
    ensures var (s', won) := Elected(s, preVotes, votes); !won && FollowsIn(s, s', votes[k].value.term)
  {
    WonExactly(preVotes, s.term, Majority(|s.peers| + 1));
    OvertakesEnds(votes, s.term + 1, Majority(|s.peers| + 1), k);
  }

  /** A node that is refused the pre-vote, or is no member, is as it was. */
  lemma PreVoteRefused(s: NodeState, preVotes: Replies, votes: Replies)
    requires NoneLater(preVotes, s.term, |preVotes|)
    requires !s.selfMember || 1 + Granted(preVotes) < Majority(|s.peers| + 1)
    ensures Elected(s, preVotes, votes) == (s, false)
  {
    if s.selfMember {
      ShortEnds(preVotes, s.term, Majority(|s.peers| + 1));
    }
  }

  /** A node that is refused the vote is a candidate of the next term that voted for itself. */
  lemma VoteRefused(s: NodeState, preVotes: Replies, votes: Replies)
    requires s.selfMember && Carried(preVotes, s.term, Majority(|s.peers| + 1))
    requires NoneLater(votes, s.term + 1, |votes|) && 1 + Granted(votes) < Majority(|s.peers| + 1)
    ensures var (s', won) := Elected(s, preVotes, votes);
      && !won && s'.role.Candidate? && s'.term == s.term + 1 && s'.votedFor == s.id && s'.leaderId == NONE
      && s'.nextIndex.None? && s'.matchIndex.None? && s'.log == s.log && s'.commit == s.commit
  {
    WonExactly(preVotes, s.term, Majority(|s.peers| + 1));
    ShortEnds(votes, s.term + 1, Majority(|s.peers| + 1));
  }
}
