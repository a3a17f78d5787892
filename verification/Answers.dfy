/**
  When a node grants a pre-vote or a vote and when it accepts an append, in
  terms of its members, its term, its vote and its log (raft/node.go).
 */
module Answers {
  import opened RaftTypes
  import opened LogOps
  import opened LogLemmas
  import opened NodeModel
  import opened MembershipChanges

  /** A node listens to its members; a member that has never been configured listens to everyone. */
  predicate ListensTo(s: NodeState, id: NodeId) {
    id in Members(s) || (s.selfMember && !s.configured)
  }

  lemma MemberExactly(s: NodeState, id: NodeId)
    requires Distinct(s)
    ensures IsMember(s, id) <==> ListensTo(s, id)
  {
  }

  /** Once a change is applied a node listens to the members it then has, and to no one else. */
  lemma ListensToMembersAfterChange(s: NodeState, command: Command, id: NodeId)
    requires Distinct(s) && command.IsMembership()
    ensures IsMember(ApplyMembership(s, command), id) <==>
      id in (if command.AddPeer? then Members(s) + {command.peer} else Members(s) - {command.peer})
  {
    ChangesOneMember(s, command);
    MemberExactly(ApplyMembership(s, command), id);
  }

  /** The log a request describes ends in a later term, or in the same term and no earlier. */
  predicate Describes(req: VoteRequest, log: Log) {
    req.lastTerm == LastTerm(log) && req.lastIndex == |log|
  }

  predicate NoStaler(log: Log, than: Log) {
    LastTerm(log) > LastTerm(than) || (LastTerm(log) == LastTerm(than) && |log| >= |than|)
  }

  /**
    A pre-vote is granted if and only if the request is not of an earlier term,
    the node is a member that listens to the candidate, and the candidate's log
    is no staler than its own.
   */
  lemma PreVoteGrantedExactly(s: NodeState, req: VoteRequest, log: Log)
    requires Distinct(s) && Describes(req, log)
    ensures AnswerPreVote(s, req).term == s.term
    ensures AnswerPreVote(s, req).granted <==>
      req.term >= s.term && s.selfMember && ListensTo(s, req.candidate) && NoStaler(log, s.log)
  {
    MemberExactly(s, req.candidate);
  }

  /**
    A vote is granted if and only if a pre-vote would be and the node has not
    voted for another in that term; it is then cast.
   */
  lemma VoteGrantedExactly(s: NodeState, req: VoteRequest, log: Log)
    requires Distinct(s) && Describes(req, log)
    ensures var (s', reply) := AnswerVote(s, req);
      && (reply.granted <==>
            && req.term >= s.term && s.selfMember && ListensTo(s, req.candidate) && NoStaler(log, s.log)
            && (req.term > s.term || s.votedFor == NONE || s.votedFor == req.candidate))
      && (reply.granted ==> s'.votedFor == req.candidate && AnswerPreVote(s, req).granted)
      && (!reply.granted && s'.term == s.term ==> s' == s)
  {
    MemberExactly(s, req.candidate);
  }

  /**
    A vote request of a later term, from a candidate the node listens to, makes
    it follow in that term; any other leaves all but the vote as it was. The
    reply carries the term the node is in.
   */
  lemma VoteRequestHeeded(s: NodeState, req: VoteRequest)
    requires Distinct(s)
    ensures var (s', reply) := AnswerVote(s, req);
      && reply.term == s'.term
      && s' == (if s'.term == s.term then s.(votedFor := s'.votedFor)
                else s.(term := req.term, votedFor := s'.votedFor, role := Follower, leaderId := NONE,
                        nextIndex := None, matchIndex := None))
      && (s'.term != s.term <==> req.term > s.term && s.selfMember && ListensTo(s, req.candidate))
      && (s'.term != s.term && !reply.granted ==> s'.votedFor == NONE)
  {
    MemberExactly(s, req.candidate);
  }

  // ---- Appends ----

  /** The node holds, at that index, an entry of that term which it can still look up. */
  predicate Holds(s: NodeState, index: nat, term: nat) {
    s.base <= index && 0 < index <= |s.log| && s.log[index - 1].term == term
  }

  /**
    An append of an earlier term, or from a node not listened to, changes
    nothing. Any other makes the node a follower of that leader in its term,
    with its vote if the term is the same, and without progress unless it was a
    follower already.
   */
  lemma AppendMakesFollower(s: NodeState, req: AppendRequest)
    requires Distinct(s) && s.base <= |s.log|
    ensures var (s', reply) := AnswerAppend(s, req);
      && reply.term == s'.term && s'.peers == s.peers && s'.selfMember == s.selfMember
      && s'.applied == s.applied && s'.base == s.base && s'.snapshot == s.snapshot
      && (req.term < s.term || !ListensTo(s, req.leader) ==> s' == s && !reply.success)
      && (req.term >= s.term && ListensTo(s, req.leader) ==>
            && s'.role.Follower? && s'.leaderId == req.leader && s'.term == req.term
            && s'.votedFor == (if req.term > s.term then NONE else s.votedFor)
            && (req.term > s.term || !s.role.Follower? ==> s'.nextIndex.None? && s'.matchIndex.None?))
  {
    MemberExactly(s, req.leader);
  }

  /**
    It succeeds if and only if it starts at the beginning or at an entry the
    node holds. Then the node holds every entry of the request beyond its
    snapshot and has raised its commit index to what the request announces, or
    to its last index if that is less; otherwise log and commit index stay.
   */
  lemma AppendAcceptedExactly(s: NodeState, req: AppendRequest)
    requires Distinct(s) && s.base <= |s.log| && req.WellFormed() && req.term >= s.term && ListensTo(s, req.leader)
    ensures var (s', reply) := AnswerAppend(s, req);
      && (reply.success <==> req.prevIndex == 0 || Holds(s, req.prevIndex, req.prevTerm))
      && (!reply.success ==> s'.log == s.log && s'.commit == s.commit)
      && (reply.success ==>
            && s'.commit == Max(s.commit, Min(req.leaderCommit, |s'.log|))
            && forall k | Skipped(s.base, req.prevIndex) <= k < |req.entries| ::
                 Matched(s'.log, req.prevIndex, req.entries, k))
  {
    MemberExactly(s, req.leader);
    var (s', reply) := AnswerAppend(s, req);
    if reply.success {
      PlacedCases(s.log, s.base, req.prevIndex, req.entries);
      forall k | Skipped(s.base, req.prevIndex) <= k < |req.entries|
        ensures Matched(s'.log, req.prevIndex, req.entries, k)
      {
        MergedTerms(s.log, s.base, req.prevIndex, req.entries, k);
      }
    }
  }
}
