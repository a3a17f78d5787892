/**
  What a membership change does to a leader: whom it counts, what it commits,
  and where a new member starts (raft/node.go).
 */
module MembershipCommits {
  import opened RaftTypes
  import opened LogOps
  import opened NodeModel
  import opened Cluster
  import opened CommitSteps
  import opened Evolution
  import opened MembershipChanges

  /** Progress is kept for peers only. */
  predicate Tracked(s: NodeState) {
    && (s.nextIndex.Some? ==> s.nextIndex.value.Keys <= PeerSet(s.peers))
    && (s.matchIndex.Some? ==> s.matchIndex.value.Keys <= PeerSet(s.peers))
  }

  function Changed(s: NodeState, command: Command): NodeState
    requires command.IsMembership()
  {
    var s1 := s.(configured := true);
    if command.AddPeer? then AddMember(s1, command.peer) else RemoveMember(s1, command.peer)
  }

  // ---- Progress ----

  ghost predicate SameProgress(s: NodeState, s': NodeState, except: NodeId) {
    forall p | p != except ::
      Lookup(s'.nextIndex, p) == Lookup(s.nextIndex, p) && Lookup(s'.matchIndex, p) == Lookup(s.matchIndex, p)
  }

  /**
    A new member of a leader with progress is to be sent what comes after the
    leader's log and is known to hold nothing; the other peers' progress stays.
   */
  lemma AddedProgress(s: NodeState, d: NodeId)
    requires Tracked(s) && d != s.id && d !in s.peers
    ensures var s' := ApplyMembership(s, AddPeer(d));
      && Tracked(s') && SameProgress(s, s', d) && Lookup(s'.matchIndex, d) == 0
      && (s.role.Leader? && s.nextIndex.Some? && s.matchIndex.Some? ==>
            KnowsPeer(s', d) && Lookup(s'.nextIndex, d) == |s.log| + 1)
  {
    assert PeerSet(s.peers + [d]) == PeerSet(s.peers) + {d};
  }

  /** A removed member is no longer known; the other peers' progress stays. */
  lemma RemovedProgress(s: NodeState, d: NodeId)
    requires Tracked(s) && d != s.id
    ensures var s' := ApplyMembership(s, RemovePeer(d));
      Tracked(s') && SameProgress(s, s', d) && !KnowsPeer(s', d) && Lookup(s'.matchIndex, d) == 0
  {
    WithoutRemoves(s.peers, d);
  }

  // ---- What a change commits ----

  /** The members that hold the log through n, as far as the leader knew before the change. */
  function HeldBefore(s: NodeState, members: set<NodeId>, n: nat): set<NodeId> {
    set p | p in members && (p == s.id || Lookup(s.matchIndex, p) >= n)
  }

  lemma ChangedMembers(s: NodeState, command: Command)
    requires command.IsMembership() && Distinct(s) && command != RemovePeer(s.id) && s.selfMember
    ensures var s1 := Changed(s, command); Distinct(s1) && s1.id == s.id && s1.selfMember
  {
    if command.AddPeer? {
      AddsOne(s.(configured := true), command.peer);
    } else {
      RemovesOne(s.(configured := true), command.peer);
    }
  }

  lemma ChangedMatch(s: NodeState, command: Command, p: NodeId)
    requires command.IsMembership() && Tracked(s) && command != RemovePeer(s.id)
    ensures Lookup(Changed(s, command).matchIndex, p) > 0 ==>
      Lookup(Changed(s, command).matchIndex, p) == Lookup(s.matchIndex, p) && p in s.peers
  {
  }

  /** Whom the commit rule counts after the change held the log before it. */
  lemma CountedBefore(s: NodeState, s1: NodeState, r: nat, n: nat)
    requires Distinct(s1) && s1.id == s.id && s.selfMember && s1.selfMember && 0 < n <= r && Committable(s1, r)
    requires forall p | Lookup(s1.matchIndex, p) > 0 ::
      Lookup(s1.matchIndex, p) == Lookup(s.matchIndex, p) && p in s.peers
    requires forall p | Lookup(s.matchIndex, p) > 0 :: p in s.peers
    ensures |HeldBefore(s, Members(s1), n)| >= Majority(|Members(s1)|) && HeldBefore(s, Members(s1), n) <= Members(s)
  {
    ClusterSizeCounts(s1);
    HoldersCount(s1.peers, s1.matchIndex, r);
    var counted := HolderSet(s1.peers, s1.matchIndex, r);
    assert s.id !in counted;
    Smaller(counted + {s.id}, HeldBefore(s, Members(s1), n));
  }

  /**
    Whatever a leader commits in applying a change ends in its own term and is
    held, by what it knew before the change, by a majority of the configuration
    after it: a new member is not counted.
   */
  lemma ChangeCommitsWhatIsHeld(s: NodeState, command: Command)
    requires s.role.Leader? && s.selfMember && command.IsMembership() && Tracked(s) && Distinct(s)
    ensures var s' := ApplyMembership(s, command);
      && s'.commit >= s.commit
      && (s'.commit > s.commit ==> s'.commit <= |s.log| && TermAt(s, s'.commit) == s.term)
      && (forall n: nat | s.commit < n <= s'.commit ::
            |HeldBefore(s, Members(s'), n)| >= Majority(|Members(s')|) && HeldBefore(s, Members(s'), n) <= Members(s))
  {
    var s1 := Changed(s, command);
    var s' := ApplyMembership(s, command);
    if command != RemovePeer(s.id) {
      CommitFromExact(s1, |s.log|);
      ChangedMembers(s, command);
      assert Members(s') == Members(s1);
      forall p ensures Lookup(s1.matchIndex, p) > 0 ==>
          Lookup(s1.matchIndex, p) == Lookup(s.matchIndex, p) && p in s.peers
      {
        ChangedMatch(s, command, p);
      }
      forall n: nat | s.commit < n <= s'.commit
        ensures |HeldBefore(s, Members(s'), n)| >= Majority(|Members(s')|)
        ensures HeldBefore(s, Members(s'), n) <= Members(s)
      {
        CountedBefore(s, s1, s'.commit, n);
      }
    }
  }

  /** So a leader that has committed all it may commits nothing more by taking in a member. */
  lemma AddingCommitsNothing(s: NodeState, d: NodeId)
    requires s.role.Leader? && s.selfMember && Tracked(s) && Distinct(s) && AdvanceCommit(s) == s
    ensures ApplyMembership(s, AddPeer(d)).commit == s.commit
  {
    var s' := ApplyMembership(s, AddPeer(d));
    ChangeCommitsWhatIsHeld(s, AddPeer(d));
    if s'.commit > s.commit {
      var n := s'.commit;
      ChangesOneMember(s, AddPeer(d));
      Smaller(Members(s), Members(s'));
      HeldIsCommittable(s, n, HeldBefore(s, Members(s'), n));
      CommitFromExact(s, |s.log|);
    }
  }

  lemma HeldIsCommittable(s: NodeState, n: nat, held: set<NodeId>)
    requires s.selfMember && Distinct(s) && TermAt(s, n) == s.term
    requires held <= Members(s) && |held| >= Majority(|Members(s)|)
    requires forall p | p in held :: p == s.id || Lookup(s.matchIndex, p) >= n
    ensures Committable(s, n)
  {
    ClusterSizeCounts(s);
    HoldersCount(s.peers, s.matchIndex, n);
    var counted := HolderSet(s.peers, s.matchIndex, n);
    assert s.id !in counted;
    Smaller(held, counted + {s.id});
  }

  /** After a change a leader has committed all that the rule lets it in the new configuration. */
  lemma ChangeSettles(s: NodeState, command: Command, n: nat)
    requires command.IsMembership()
    requires ApplyMembership(s, command).role.Leader? && ApplyMembership(s, command).selfMember
    requires ApplyMembership(s, command).commit < n <= |s.log|
    ensures !Committable(ApplyMembership(s, command), n)
  {
    var s1 := Changed(s, command);
    CommitFromExact(s1, |s.log|);
    assert !Committable(s1, n);
  }

  // ---- The new member ----

  lemma FirstRequest(s: NodeState, d: NodeId)
    requires s.role.Leader? && s.nextIndex.Some? && s.matchIndex.Some? && s.base <= |s.log|
    requires d != s.id && d !in s.peers
    ensures var req := BuildAppend(ApplyMembership(s, AddPeer(d)), d);
      && req.term == s.term && req.leader == s.id && req.prevIndex == |s.log| && req.entries == []
      && req.prevTerm == LastTerm(s.log)
  {
  }

  lemma EmptyRequestKeeps(f: NodeState, req: AppendRequest)
    requires f.base <= |f.log| && req.entries == []
    ensures AnswerAppend(f, req).0.log == f.log
  {
    PlacedCases(f.log, f.base, req.prevIndex, []);
    assert f.log + Renumber(req.prevIndex + 1, []) == f.log;
  }

  /**
    The first request to a new member carries no entry and starts at the end of
    the leader's log. The member accepts it if and only if it listens, is in no
    later term and holds the leader's last entry there; its log stays as it is.
   */
  lemma NewMemberStartsAtTheEnd(s: NodeState, d: NodeId, f: NodeState)
    requires s.role.Leader? && s.nextIndex.Some? && s.matchIndex.Some? && s.base <= |s.log|
    requires d != s.id && d !in s.peers
    requires f.base <= |f.log| && (s.log != [] ==> LastTerm(s.log) > 0)
    ensures var req := BuildAppend(ApplyMembership(s, AddPeer(d)), d);
      && req.term == s.term && req.leader == s.id && req.prevIndex == |s.log| && req.entries == []
      && (AnswerAppend(f, req).1.success <==>
            && s.term >= f.term && IsMember(f, s.id)
            && (s.log == [] || (f.base <= |s.log| <= |f.log| && f.log[|s.log| - 1].term == LastTerm(s.log))))
      && AnswerAppend(f, req).0.log == f.log
  {
    FirstRequest(s, d);
    EmptyRequestKeeps(f, BuildAppend(ApplyMembership(s, AddPeer(d)), d));
  }

  // ---- The removed member ----

  /**
    A node that applies its own removal no longer leads or knows a leader, has
    committed nothing by it, and from then on grants no vote and no pre-vote
    and is not promoted.
   */
  lemma RemovedNodeIsOut(s: NodeState, req: VoteRequest, term: nat)
    ensures var s' := ApplyMembership(s, RemovePeer(s.id));
      && s'.role.Follower? && s'.leaderId == NONE && s'.nextIndex.None? && s'.matchIndex.None? && s'.commit == s.commit
      && AnswerVote(s', req) == (s', VoteReply(s'.term, false)) && !AnswerPreVote(s', req).granted
      && Promote(BecomeCandidate(s'), term) == BecomeCandidate(s')
  {
  }
}
